/**
 In-place password rotation. Every ACL or configuration command is one step; the
 attempt may be cut short by any of them failing, and each new attempt draws a
 fresh password.
 */
module Rotation {

  type Password = nat

  /** A data pod: the passwords each ACL user accepts, what it presents upstream, and its saved aclfile. */
  datatype Pod = Pod(def: set<Password>, managed: seq<set<Password>>, masterauth: Password,
                     requirepass: Password, aclfile: (set<Password>, seq<set<Password>>))

  datatype Sentinel = Sentinel(def: set<Password>, authPass: Password, sentinelPass: Password)

  /** Where the running attempt stands: the pod or Sentinel it is at and the next command there. */
  datatype Pc =
    | Idle
    | AddNew(pod: nat, cmd: nat)
    | SentinelAdd(at: nat)
    | SentinelSwitch(at: nat, cmd: nat)
    | Cutover(pod: nat, cmd: nat)
    | SentinelCutover(at: nat)
    | WriteSecret
    | WriteToken

  /**
   `users` is the number of managed users: none standalone, the replication user
   (index 0) when pods replicate, and the Sentinel user (index 1) besides.
   `token` is the annotation the running attempt was started for.
   `used` is every password ever in use. `adopting`: some pod presents a masterauth
   whose add-new pass has not finished. `cut`: a pod has dropped the Secret's password.
   */
  datatype State = State(users: nat, pods: seq<Pod>, sentinels: seq<Sentinel>, secret: Password,
                         asked: string, done: string, token: string, pc: Pc, next: Password, used: set<Password>,
                         adopting: bool, cut: bool)

  datatype Event =
    | Ask(token: string)      // the rotate-password annotation changes
    | Begin(password: Password)  // a reconcile passes the token guard and generates a password
    | Op(ok: bool)            // the attempt's next command; a failure ends the attempt

  // -------------------------------------------------------------------- steps

  /** dialReplClient with the old password, then with the new one. */
  predicate Dials(def: set<Password>, s: State) { s.secret in def || s.next in def }

  function Abort(s: State): State { s.(pc := Idle) }

  function AddCommand(p: Pod, users: nat, cmd: nat, x: Password): Pod
    requires |p.managed| == users
  {
    if cmd == 0 then p.(def := p.def + {x})
    else if cmd <= users then p.(managed := p.managed[cmd - 1 := p.managed[cmd - 1] + {x}])
    else p.(masterauth := x)
  }

  function CutCommand(p: Pod, users: nat, cmd: nat, x: Password): Pod
    requires |p.managed| == users
  {
    if cmd == 0 then p.(def := {x})
    else if cmd <= users then p.(managed := p.managed[cmd - 1 := {x}])
    else if cmd == users + 1 then p.(requirepass := x)
    else p.(aclfile := (p.def, p.managed))
  }

  predicate Shaped(s: State) {
    && |s.pods| > 0
    && (forall i :: 0 <= i < |s.pods| ==> |s.pods[i].managed| == s.users)
    && (s.sentinels != [] ==> s.users == 2)
  }

  function AfterAdd(s: State): Pc { if s.sentinels == [] then Cutover(0, 0) else SentinelAdd(0) }

  function AfterCutover(s: State): Pc { if s.sentinels == [] then WriteSecret else SentinelCutover(0) }

  function AddStep(s: State, i: nat, c: nat): State
    requires Shaped(s) && i < |s.pods|
  {
    if c == 0 && !Dials(s.pods[i].def, s) then Abort(s)
    else
      var t := s.(pods := s.pods[i := AddCommand(s.pods[i], s.users, c, s.next)]);
      if c <= s.users then t.(pc := AddNew(i, c + 1))
      else if i + 1 < |s.pods| then t.(pc := AddNew(i + 1, 0), adopting := true)
      else t.(pc := AfterAdd(s), adopting := false)
  }

  function CutStep(s: State, i: nat, c: nat): State
    requires Shaped(s) && i < |s.pods|
  {
    if c == 0 && !Dials(s.pods[i].def, s) then Abort(s)
    else
      var t := s.(pods := s.pods[i := CutCommand(s.pods[i], s.users, c, s.next)], cut := true);
      if c <= s.users + 1 then t.(pc := Cutover(i, c + 1))
      else if i + 1 < |s.pods| then t.(pc := Cutover(i + 1, 0))
      else t.(pc := AfterCutover(s))
  }

  function SentinelStep(s: State): State
    requires s.pc.SentinelAdd? || s.pc.SentinelSwitch? || s.pc.SentinelCutover?
    requires s.pc.at < |s.sentinels|
  {
    var j, n, x := s.pc.at, |s.sentinels|, s.next;
    var sen := s.sentinels[j];
    if !Dials(sen.def, s) then Abort(s)
    else match s.pc
      case SentinelAdd(_) =>
        s.(sentinels := s.sentinels[j := sen.(def := sen.def + {x})],
           pc := if j + 1 < n then SentinelAdd(j + 1) else SentinelSwitch(0, 0))
      case SentinelSwitch(_, cmd) =>
        if cmd == 0 then s.(sentinels := s.sentinels[j := sen.(authPass := x)], pc := SentinelSwitch(j, 1))
        else s.(sentinels := s.sentinels[j := sen.(sentinelPass := x)],
                pc := if j + 1 < n then SentinelSwitch(j + 1, 0) else Cutover(0, 0))
      case SentinelCutover(_) =>
        s.(sentinels := s.sentinels[j := sen.(def := {x})],
           pc := if j + 1 < n then SentinelCutover(j + 1) else WriteSecret)
  }

  predicate InRange(s: State) {
    match s.pc
    case AddNew(i, c) => i < |s.pods| && c <= s.users + 1
    case Cutover(i, c) => i < |s.pods| && c <= s.users + 2
    case SentinelAdd(j) => j < |s.sentinels|
    case SentinelSwitch(j, c) => j < |s.sentinels| && c <= 1
    case SentinelCutover(j) => j < |s.sentinels|
    case _ => true
  }

  /** An attempt starts: it keeps the token it saw and draws a password. */
  function Started(s: State, password: Password): State {
    s.(pc := AddNew(0, 0), token := s.asked, next := password, used := s.used + {password})
  }

  function Step(s: State, e: Event): State {
    if !Shaped(s) || !InRange(s) then s else
    match e
    case Ask(token) => s.(asked := token)
    case Begin(password) =>
      if s.pc == Idle && s.asked != "" && s.asked != s.done && password !in s.used
      then Started(s, password) else s
    case Op(ok) =>
      if !ok then Abort(s)
      else match s.pc
        case Idle => s
        case AddNew(i, c) => AddStep(s, i, c)
        case Cutover(i, c) => CutStep(s, i, c)
        case WriteSecret => s.(secret := s.next, cut := false, pc := WriteToken)
        case WriteToken => s.(done := s.token, pc := Idle)
        case _ => SentinelStep(s)
  }

  // --------------------------------------------------------------- invariants

  predicate Accepts(p: Pod, x: Password) {
    x in p.def && forall k :: 0 <= k < |p.managed| ==> x in p.managed[k]
  }

  /** Every user accepts x and nothing else, live and in the saved aclfile. */
  predicate Exactly(p: Pod, x: Password) {
    && p.def == {x} && (forall k :: 0 <= k < |p.managed| ==> p.managed[k] == {x})
    && p.masterauth == x && p.requirepass == x && p.aclfile == (p.def, p.managed)
  }

  ghost predicate AllAccept(s: State, x: Password) {
    && (forall i :: 0 <= i < |s.pods| ==> Accepts(s.pods[i], x))
    && (forall j :: 0 <= j < |s.sentinels| ==> x in s.sentinels[j].def)
  }

  /** No Sentinel presents a credential some data pod or other Sentinel rejects. */
  ghost predicate SentinelsAccepted(s: State) {
    && (forall j, i :: 0 <= j < |s.sentinels| && 0 <= i < |s.pods| && |s.pods[i].managed| == 2
          ==> s.sentinels[j].authPass in s.pods[i].managed[1])
    && (forall j, k :: 0 <= j < |s.sentinels| && 0 <= k < |s.sentinels|
          ==> s.sentinels[j].sentinelPass in s.sentinels[k].def)
  }

  /** No pod presents a masterauth some pod's replication user rejects. */
  ghost predicate LinksAccepted(s: State) {
    forall i, k :: 0 <= i < |s.pods| && 0 <= k < |s.pods| && 0 < |s.pods[k].managed|
      ==> s.pods[i].masterauth in s.pods[k].managed[0]
  }

  /** Pod p after the first c commands of the add-new pass. */
  ghost predicate Added(p: Pod, users: nat, c: nat, x: Password) {
    && |p.managed| == users
    && (c > 0 ==> x in p.def)
    && (forall k :: 0 <= k < users && k + 1 < c ==> x in p.managed[k])
    && (c > users + 1 ==> p.masterauth == x)
  }

  /** Pod p after the first c commands of the cutover pass. */
  ghost predicate Cut(p: Pod, users: nat, c: nat, x: Password) {
    && |p.managed| == users && p.masterauth == x
    && (c > 0 ==> p.def == {x})
    && (forall k :: 0 <= k < users && k + 1 < c ==> p.managed[k] == {x})
    && (c > users + 1 ==> p.requirepass == x)
    && (c > users + 2 ==> p.aclfile == (p.def, p.managed))
  }

  ghost predicate PodsAdded(s: State, i: nat, c: nat) {
    forall k :: 0 <= k < |s.pods| ==>
      Added(s.pods[k], s.users, if k < i then s.users + 2 else if k == i then c else 0, s.next)
  }

  ghost predicate PodsCut(s: State, i: nat, c: nat) {
    forall k :: 0 <= k < |s.pods| ==>
      && Accepts(s.pods[k], s.next)
      && Cut(s.pods[k], s.users, if k < i then s.users + 3 else if k == i then c else 0, s.next)
      && (k > i || (k == i && c == 0) ==> Accepts(s.pods[k], s.secret))
  }

  ghost predicate SentinelsAt(s: State, added: nat, switched: nat, half: bool, cutOver: nat) {
    forall j :: 0 <= j < |s.sentinels| ==>
      && (j < added ==> s.next in s.sentinels[j].def)
      && (j < switched || (half && j == switched) ==> s.sentinels[j].authPass == s.next)
      && (j < switched ==> s.sentinels[j].sentinelPass == s.next)
      && (j < cutOver ==> s.sentinels[j].def == {s.next})
      && (j >= cutOver ==> s.secret in s.sentinels[j].def)
  }

  ghost predicate PcInv(s: State) {
    var n, m := |s.pods|, |s.sentinels|;
    match s.pc
    case Idle => s.cut || AllAccept(s, s.secret)
    case AddNew(i, c) => (s.cut && i == 0 && c == 0) || (!s.cut && AllAccept(s, s.secret) && PodsAdded(s, i, c))
    case SentinelAdd(j) => !s.cut && AllAccept(s, s.secret) && PodsAdded(s, n, 0) && SentinelsAt(s, j, 0, false, 0)
    case SentinelSwitch(j, c) => !s.cut && AllAccept(s, s.secret) && PodsAdded(s, n, 0)
          && SentinelsAt(s, m, j, c == 1, 0)
    case Cutover(i, c) => s.cut == (i > 0 || c > 0) && PodsCut(s, i, c) && SentinelsAt(s, m, m, false, 0)
    case SentinelCutover(j) => s.cut && PodsCut(s, n, 0) && SentinelsAt(s, m, m, false, j)
    case WriteSecret => s.cut && PodsCut(s, n, 0) && SentinelsAt(s, m, m, false, m)
    case WriteToken => !s.cut && s.secret == s.next && PodsCut(s, n, 0) && SentinelsAt(s, m, m, false, m)
  }

  ghost predicate Inv(s: State) {
    && Shaped(s) && InRange(s) && s.secret in s.used && s.next in s.used
    && (s.pc != Idle && s.pc != WriteToken ==> s.next != s.secret)
    && (s.cut && (s.pc == Idle || s.pc == AddNew(0, 0)) ==> s.secret !in s.pods[0].def)
    && (s.cut && s.pc == AddNew(0, 0) ==> s.next !in s.pods[0].def)
    && s.pods[0].def <= s.used
    && SentinelsAccepted(s) && (!s.adopting ==> LinksAccepted(s))
    && PcInv(s)
  }

  lemma AskKeeps(s: State, token: string)
    requires Inv(s)
    ensures Inv(s.(asked := token))
  {
    var t := s.(asked := token);
    assert PcInv(t);
  }

  lemma BeginKeeps(s: State, password: Password)
    requires Inv(s) && s.pc == Idle && password !in s.used
    ensures Inv(Started(s, password))
  {
    var t := Started(s, password);
    assert PcInv(t);
  }

  lemma AskOrBegin(s: State, e: Event)
    requires Inv(s) && !e.Op?
    ensures Inv(Step(s, e))
  {
    match e
    case Ask(token) => AskKeeps(s, token);
    case Begin(password) => if Step(s, e) != s { BeginKeeps(s, password); }
  }

  /** A failing command ends the attempt; nothing else changes. */
  lemma Aborted(s: State)
    requires Inv(s)
    ensures Inv(Abort(s))
  {
  }

  /** An add-new command only widens what a pod accepts. */
  ghost predicate Wider(p: Pod, q: Pod) {
    && |q.managed| == |p.managed| && p.def <= q.def
    && forall k :: 0 <= k < |p.managed| ==> p.managed[k] <= q.managed[k]
  }

  lemma AddCommandAt(p: Pod, users: nat, c: nat, x: Password)
    requires Added(p, users, c, x) && c <= users + 1
    ensures Added(AddCommand(p, users, c, x), users, c + 1, x) && Wider(p, AddCommand(p, users, c, x))
  {
  }

  lemma WiderKeeps(s: State, t: State, i: nat)
    requires Shaped(s) && i < |s.pods| && |t.pods| == |s.pods| && t.sentinels == s.sentinels
    requires t.pods == s.pods[i := t.pods[i]] && Wider(s.pods[i], t.pods[i])
    ensures SentinelsAccepted(s) ==> SentinelsAccepted(t)
    ensures forall x :: AllAccept(s, x) ==> AllAccept(t, x)
    ensures LinksAccepted(s) && t.pods[i].masterauth == s.pods[i].masterauth ==> LinksAccepted(t)
  {
    forall k | 0 <= k < |s.pods| ensures Wider(s.pods[k], t.pods[k]) {}
    forall x | AllAccept(s, x) ensures AllAccept(t, x) {
      forall k | 0 <= k < |t.pods| ensures Accepts(t.pods[k], x) { assert Accepts(s.pods[k], x); }
    }
  }

  lemma AddPcKeeps(s: State, t: State, i: nat, c: nat)
    requires Shaped(s) && i < |s.pods| && c <= s.users + 1 && PodsAdded(s, i, c)
    requires !s.cut && Dials(s.pods[i].def, s) && t == AddStep(s, i, c)
    requires AllAccept(t, s.secret) && Added(t.pods[i], s.users, c + 1, s.next)
    ensures PcInv(t) && (t.pc.Cutover? || t.pc.SentinelAdd? ==> LinksAccepted(t))
  {
    forall k | 0 <= k < |t.pods| && k != i ensures t.pods[k] == s.pods[k] {}
    if c > s.users && i + 1 == |s.pods| {
      forall k | 0 <= k < |t.pods| ensures Added(t.pods[k], t.users, s.users + 2, t.next) {}
      assert forall k :: 0 <= k < |t.pods| ==> Accepts(t.pods[k], t.next) && t.pods[k].masterauth == t.next;
    }
  }

  lemma AddKeeps(s: State)
    requires Inv(s) && s.pc.AddNew?
    ensures Inv(AddStep(s, s.pc.pod, s.pc.cmd))
  {
    var i, c := s.pc.pod, s.pc.cmd;
    if !s.cut {
      var t := AddStep(s, i, c);
      assert Accepts(s.pods[i], s.secret) && Dials(s.pods[i].def, s);
      assert Added(s.pods[i], s.users, c, s.next);
      AddCommandAt(s.pods[i], s.users, c, s.next);
      WiderKeeps(s, t, i);
      AddPcKeeps(s, t, i, c);
    }
  }

  /** Once every party presents the new password and every party accepts it, nothing is rejected. */
  lemma NextAccepted(s: State, cutOver: nat)
    requires Shaped(s) && SentinelsAt(s, |s.sentinels|, |s.sentinels|, false, cutOver)
    requires forall k :: 0 <= k < |s.pods| ==> Accepts(s.pods[k], s.next) && s.pods[k].masterauth == s.next
    ensures SentinelsAccepted(s) && LinksAccepted(s)
  {
  }

  lemma CutCommandAt(p: Pod, users: nat, c: nat, x: Password)
    requires Cut(p, users, c, x) && Accepts(p, x) && c <= users + 2
    ensures Cut(CutCommand(p, users, c, x), users, c + 1, x) && Accepts(CutCommand(p, users, c, x), x)
  {
  }

  /** The pods after one more command of the cutover pass. */
  lemma CutPodsAfter(s: State, t: State, i: nat, c: nat)
    requires Shaped(s) && i < |s.pods| && c <= s.users + 2 && PodsCut(s, i, c)
    requires t == CutStep(s, i, c) && Accepts(t.pods[i], s.next) && Cut(t.pods[i], s.users, c + 1, s.next)
    ensures forall k :: 0 <= k < |t.pods| && k != i ==> t.pods[k] == s.pods[k]
    ensures forall k :: 0 <= k < |t.pods| ==> Accepts(t.pods[k], t.next) && t.pods[k].masterauth == t.next
    ensures Cut(t.pods[0], t.users, 1, t.next)
    ensures if c <= s.users + 1 then PodsCut(t, i, c + 1) else PodsCut(t, i + 1, 0)
  {
    assert Accepts(s.pods[i], s.next);
    forall k | 0 <= k < |t.pods| ensures Accepts(t.pods[k], t.next) && t.pods[k].masterauth == t.next {
      assert Cut(s.pods[k], s.users, if k < i then s.users + 3 else if k == i then c else 0, s.next);
    }
  }

  lemma CutPcKeeps(s: State, t: State, i: nat, c: nat)
    requires Shaped(s) && i < |s.pods| && c <= s.users + 2 && PodsCut(s, i, c)
    requires SentinelsAt(s, |s.sentinels|, |s.sentinels|, false, 0)
    requires t == CutStep(s, i, c) && Accepts(t.pods[i], s.next) && Cut(t.pods[i], s.users, c + 1, s.next)
    ensures InRange(t) && PcInv(t) && Cut(t.pods[0], t.users, 1, t.next)
          && SentinelsAt(t, |t.sentinels|, |t.sentinels|, false, 0)
    ensures forall k :: 0 <= k < |t.pods| ==> Accepts(t.pods[k], t.next) && t.pods[k].masterauth == t.next
    ensures t.pc != Idle
  {
    assert Accepts(s.pods[i], s.next);
    CutPodsAfter(s, t, i, c);
  }

  lemma CutShaped(s: State, i: nat, c: nat)
    requires Shaped(s) && i < |s.pods|
    ensures Shaped(CutStep(s, i, c))
  {
  }

  lemma CutKeeps(s: State)
    requires Inv(s) && s.pc.Cutover?
    ensures Inv(CutStep(s, s.pc.pod, s.pc.cmd))
  {
    var i, c := s.pc.pod, s.pc.cmd;
    var t := CutStep(s, i, c);
    assert Accepts(s.pods[i], s.next) && Cut(s.pods[i], s.users, c, s.next);
    CutCommandAt(s.pods[i], s.users, c, s.next);
    CutPcKeeps(s, t, i, c);
    assert SentinelsAccepted(t) && LinksAccepted(t) by { NextAccepted(t, 0); }
    assert Shaped(t) by { CutShaped(s, i, c); }
    assert t.pods[0].def == {t.next} by { assert Cut(t.pods[0], t.users, 1, t.next); }
  }

  lemma SentinelAddKeeps(s: State)
    requires Inv(s) && s.pc.SentinelAdd?
    ensures Inv(SentinelStep(s))
  {
    var t := SentinelStep(s);
    var j := s.pc.at;
    assert s.secret in s.sentinels[j].def;
    forall k | 0 <= k < |t.sentinels| ensures s.sentinels[k].def <= t.sentinels[k].def
      && t.sentinels[k].authPass == s.sentinels[k].authPass
            && t.sentinels[k].sentinelPass == s.sentinels[k].sentinelPass {}
    assert SentinelsAccepted(t);
  }

  /** After the add-new pass every pod accepts both passwords and presents the new one: ready to cut over. */
  lemma AddedReadyToCut(s: State)
    requires Shaped(s) && PodsAdded(s, |s.pods|, 0) && AllAccept(s, s.secret)
    ensures PodsCut(s, 0, 0)
  {
    forall k | 0 <= k < |s.pods|
      ensures Accepts(s.pods[k], s.next) && Cut(s.pods[k], s.users, 0, s.next) && Accepts(s.pods[k], s.secret)
    {
      assert Added(s.pods[k], s.users, s.users + 2, s.next);
    }
  }

  /** A switch command changes what one Sentinel presents, to the new password everyone accepts. */
  lemma SwitchAccepted(s: State, t: State, j: nat)
    requires Shaped(s) && SentinelsAccepted(s) && j < |s.sentinels| && t.pods == s.pods && t.users == s.users
    requires |t.sentinels| == |s.sentinels| && t.sentinels == s.sentinels[j := t.sentinels[j]]
    requires t.sentinels[j].def == s.sentinels[j].def
    requires t.sentinels[j].authPass == s.sentinels[j].authPass || t.sentinels[j].authPass == s.next
    requires t.sentinels[j].sentinelPass == s.sentinels[j].sentinelPass || t.sentinels[j].sentinelPass == s.next
    requires forall k :: 0 <= k < |s.pods| ==> Accepts(s.pods[k], s.next)
    requires forall k :: 0 <= k < |s.sentinels| ==> s.next in s.sentinels[k].def
    ensures SentinelsAccepted(t)
  {
    forall k | 0 <= k < |t.sentinels| ensures t.sentinels[k].def == s.sentinels[k].def {}
  }

  lemma SwitchKeepsPc(s: State, t: State)
    requires Inv(s) && s.pc.SentinelSwitch? && t == SentinelStep(s) && PodsCut(s, 0, 0)
    requires s.secret in s.sentinels[s.pc.at].def
    ensures InRange(t) && PcInv(t)
  {
    if t.pc.Cutover? { assert PodsCut(t, 0, 0); }
  }

  lemma SentinelSwitchKeeps(s: State)
    requires Inv(s) && s.pc.SentinelSwitch?
    ensures Inv(SentinelStep(s))
  {
    var t := SentinelStep(s);
    var j := s.pc.at;
    assert s.secret in s.sentinels[j].def;
    AddedReadyToCut(s);
    SwitchKeepsPc(s, t);
    forall k | 0 <= k < |s.pods| ensures Accepts(s.pods[k], s.next) {}
    forall k | 0 <= k < |s.sentinels| ensures s.next in s.sentinels[k].def {}
    SwitchAccepted(s, t, j);
    assert LinksAccepted(t);
  }

  lemma SentinelCutoverKeeps(s: State)
    requires Inv(s) && s.pc.SentinelCutover?
    ensures Inv(SentinelStep(s))
  {
    var t := SentinelStep(s);
    var j := s.pc.at;
    assert s.next in s.sentinels[j].def;
    forall k | 0 <= k < |t.pods| ensures Accepts(t.pods[k], t.next) && t.pods[k].masterauth == t.next {
      assert Cut(s.pods[k], s.users, s.users + 3, s.next);
    }
    NextAccepted(t, j + 1);
  }

  lemma SecretKeeps(s: State)
    requires Inv(s) && s.pc == WriteSecret
    ensures Inv(Step(s, Op(true)))
  {
  }

  lemma TokenKeeps(s: State)
    requires Inv(s) && s.pc == WriteToken
    ensures Inv(Step(s, Op(true)))
  {
  }

  lemma StepKeeps(s: State, e: Event)
    requires Inv(s)
    ensures Inv(Step(s, e))
  {
    match e
    case Op(ok) =>
      if !ok { Aborted(s); }
      else {
        match s.pc
        case AddNew(_, _) => AddKeeps(s);
        case Cutover(_, _) => CutKeeps(s);
        case SentinelAdd(_) => SentinelAddKeeps(s);
        case SentinelSwitch(_, _) => SentinelSwitchKeeps(s);
        case SentinelCutover(_) => SentinelCutoverKeeps(s);
        case WriteSecret => SecretKeeps(s);
        case WriteToken => TokenKeeps(s);
        case Idle =>
      }
    case _ => AskOrBegin(s, e);
  }

  // ----------------------------------------------------------------- theorems

  function Exec(s: State, events: seq<Event>): State {
    if events == [] then s else Step(Exec(s, events[..|events| - 1]), events[|events| - 1])
  }

  lemma {:induction false} ExecKeeps(s: State, events: seq<Event>)
    requires Inv(s)
    ensures Inv(Exec(s, events))
  {
    if events != [] {
      ExecKeeps(s, events[..|events| - 1]);
      StepKeeps(Exec(s, events[..|events| - 1]), events[|events| - 1]);
    }
  }

  ghost predicate KnownPod(p: Pod, used: set<Password>) {
    p.masterauth in used && (|p.managed| > 0 ==> p.managed[0] <= used)
  }

  /** `used` is what it says: no replication user accepts, and no pod presents, a password outside it. */
  ghost predicate Known(s: State) {
    s.next in s.used && forall i :: 0 <= i < |s.pods| ==> KnownPod(s.pods[i], s.used)
  }

  /** A cluster at rest on one password, known to everyone. */
  ghost predicate Init(s: State) {
    && Shaped(s) && s.pc == Idle && !s.cut && !s.adopting
    && s.secret in s.used && Known(s) && s.pods[0].def <= s.used
    && AllAccept(s, s.secret) && SentinelsAccepted(s) && LinksAccepted(s)
  }

  lemma InitInv(s: State)
    requires Init(s)
    ensures Inv(s)
  {
  }

  predicate PastAddNew(pc: Pc) { pc != Idle && !pc.AddNew? }

  /** The operator can open a connection to every pod and Sentinel with the old or the new password. */
  ghost predicate AllDial(s: State) {
    && (forall i :: 0 <= i < |s.pods| ==> Dials(s.pods[i].def, s))
    && (forall j :: 0 <= j < |s.sentinels| ==> Dials(s.sentinels[j].def, s))
  }

  lemma DialsThroughout(s: State)
    requires Inv(s) && s.pc != Idle && (s.pc == AddNew(0, 0) ==> !s.cut)
    ensures AllDial(s)
  {
    if !s.cut && !s.pc.Cutover? && s.pc != WriteToken {
      assert forall i :: 0 <= i < |s.pods| ==> Accepts(s.pods[i], s.secret);
    } else {
      assert forall i :: 0 <= i < |s.pods| ==> Accepts(s.pods[i], s.next);
    }
  }

  /** From the end of the add-new pass on, every pod presents the new password and accepts it. */
  lemma AllOnNext(s: State)
    requires Inv(s) && PastAddNew(s.pc)
    ensures forall k :: 0 <= k < |s.pods| ==> Accepts(s.pods[k], s.next) && s.pods[k].masterauth == s.next
  {
    if s.pc.SentinelAdd? || s.pc.SentinelSwitch? { AddedReadyToCut(s); }
    var i := if s.pc.Cutover? then s.pc.pod else if s.pc.SentinelAdd? || s.pc.SentinelSwitch? then 0 else |s.pods|;
    var c := if s.pc.Cutover? then s.pc.cmd else 0;
    assert PodsCut(s, i, c);
    forall k | 0 <= k < |s.pods| ensures Accepts(s.pods[k], s.next) && s.pods[k].masterauth == s.next {
      assert Cut(s.pods[k], s.users, if k < i then s.users + 3 else if k == i then c else 0, s.next);
    }
  }

  lemma PastAddNewLinks(s: State)
    requires Inv(s) && PastAddNew(s.pc)
    ensures LinksAccepted(s)
  {
    AllOnNext(s);
  }

  /**
   In every state of every run, through any number of failed and repeated attempts:
   each Sentinel's auth-pass is accepted by every data pod and its sentinel-pass by
   every Sentinel; from the end of an add-new pass on (and until the next one gives
   a pod a masterauth ahead of the rest) every masterauth is accepted by every pod;
   and while an attempt runs the operator can dial everyone.
   */
  lemma NothingRejected(s: State, events: seq<Event>)
    requires Init(s)
    ensures var t := Exec(s, events);
            && SentinelsAccepted(t)
            && (PastAddNew(t.pc) || !t.adopting ==> LinksAccepted(t))
            && (t.pc != Idle && !(t.pc == AddNew(0, 0) && t.cut) ==> AllDial(t))
  {
    InitInv(s);
    ExecKeeps(s, events);
    var t := Exec(s, events);
    if PastAddNew(t.pc) { PastAddNewLinks(t); }
    if t.pc != Idle && !(t.pc == AddNew(0, 0) && t.cut) { DialsThroughout(t); }
  }

  /** Attempts that end before the first cutover command leave everyone accepting the Secret's password. */
  lemma SecretStillAccepted(s: State, events: seq<Event>)
    requires Init(s)
    ensures var t := Exec(s, events); t.pc == Idle && !t.cut ==> AllAccept(t, t.secret)
  {
    InitInv(s);
    ExecKeeps(s, events);
  }

  /** The Secret changes only once every user of every pod, and every Sentinel, accepts exactly the new password. */
  lemma SecretWrittenLast(s: State, e: Event)
    requires Inv(s) && Step(s, e).secret != s.secret
    ensures var x := Step(s, e).secret;
            && x == s.next && s.pc == WriteSecret
            && (forall i :: 0 <= i < |s.pods| ==> Exactly(s.pods[i], x))
            && (forall j :: 0 <= j < |s.sentinels| ==> s.sentinels[j] == Sentinel({x}, x, x))
  {
    forall i | 0 <= i < |s.pods| ensures Exactly(s.pods[i], s.next) {
      assert Cut(s.pods[i], s.users, s.users + 3, s.next);
    }
  }

  /** Where the attempt goes after a command that succeeds. */
  function NextPc(pc: Pc, users: nat, pods: nat, sentinels: nat): Pc {
    match pc
    case AddNew(i, c) =>
      if c <= users then AddNew(i, c + 1) else if i + 1 < pods then AddNew(i + 1, 0)
      else if sentinels == 0 then Cutover(0, 0) else SentinelAdd(0)
    case SentinelAdd(j) => if j + 1 < sentinels then SentinelAdd(j + 1) else SentinelSwitch(0, 0)
    case SentinelSwitch(j, c) =>
      if c == 0 then SentinelSwitch(j, 1) else if j + 1 < sentinels then SentinelSwitch(j + 1, 0) else Cutover(0, 0)
    case Cutover(i, c) =>
      if c <= users + 1 then Cutover(i, c + 1) else if i + 1 < pods then Cutover(i + 1, 0)
      else if sentinels == 0 then WriteSecret else SentinelCutover(0)
    case SentinelCutover(j) => if j + 1 < sentinels then SentinelCutover(j + 1) else WriteSecret
    case WriteSecret => WriteToken
    case _ => Idle
  }

  lemma StepMoves(s: State)
    requires Shaped(s) && InRange(s) && AllDial(s) && s.pc != Idle
    ensures var t := Step(s, Op(true));
            && t.pc == NextPc(s.pc, s.users, |s.pods|, |s.sentinels|) && t.pc != AddNew(0, 0)
            && t.users == s.users && |t.pods| == |s.pods| && |t.sentinels| == |s.sentinels|
            && t.next == s.next && t.asked == s.asked && t.token == s.token
  {
  }

  /** The attempt with every command succeeding, k commands on. */
  function Drive(s: State, k: nat): State
    decreases k
  {
    if k == 0 then s else Drive(Step(s, Op(true)), k - 1)
  }

  function Phase(pc: Pc): nat {
    match pc
    case AddNew(_, _) => 7 case SentinelAdd(_) => 6 case SentinelSwitch(_, _) => 5 case Cutover(_, _) => 4
    case SentinelCutover(_) => 3 case WriteSecret => 2 case WriteToken => 1 case Idle => 0
  }

  function ItemsLeft(s: State): int {
    match s.pc
    case AddNew(i, _) => |s.pods| - i case Cutover(i, _) => |s.pods| - i
    case SentinelAdd(j) => |s.sentinels| - j case SentinelSwitch(j, _) => |s.sentinels| - j
    case SentinelCutover(j) => |s.sentinels| - j case _ => 0
  }

  function CommandsLeft(s: State): int {
    match s.pc
    case AddNew(_, c) => s.users + 2 - c case Cutover(_, c) => s.users + 3 - c case SentinelSwitch(_, c) => 2 - c
    case _ => 0
  }

  /** An attempt that has not met a cut-over pod at its first dial runs to completion when its commands succeed. */
  lemma {:induction false} Completes(s: State) returns (k: nat)
    requires Inv(s) && s.pc != Idle && (s.pc == AddNew(0, 0) ==> !s.cut)
    ensures var t := Drive(s, k); t.pc == Idle && !t.cut && t.secret == s.next && t.done == s.token
    decreases Phase(s.pc), ItemsLeft(s), CommandsLeft(s)
  {
    DialsThroughout(s);
    StepMoves(s);
    StepKeeps(s, Op(true));
    var t := Step(s, Op(true));
    if s.pc == WriteToken {
      k := 1;
      assert Drive(t, 0) == t;
    } else {
      var rest := Completes(t);
      k := rest + 1;
    }
  }

  ghost predicate Stuck(s: State) { s.cut && (s.pc == Idle || s.pc == AddNew(0, 0)) }

  lemma StuckStep(s: State, e: Event)
    requires Inv(s) && Stuck(s)
    ensures var t := Step(s, e);
            Stuck(t) && t.pods == s.pods && t.sentinels == s.sentinels && t.secret == s.secret
  {
  }

  /** Once a pod has been cut over and the attempt has failed, no later run changes anything. */
  lemma {:induction false} StuckForever(s: State, events: seq<Event>)
    requires Inv(s) && s.pc == Idle && s.cut
    ensures var t := Exec(s, events);
            Stuck(t) && t.pods == s.pods && t.sentinels == s.sentinels && t.secret == s.secret
  {
    if events != [] {
      StuckForever(s, events[..|events| - 1]);
      ExecKeeps(s, events[..|events| - 1]);
      StuckStep(Exec(s, events[..|events| - 1]), events[|events| - 1]);
    }
  }

  lemma {:induction false} StuckDriving(s: State, k: nat)
    requires Inv(s) && Stuck(s)
    ensures Drive(s, k).secret == s.secret
    decreases k
  {
    if k > 0 {
      StepKeeps(s, Op(true));
      StuckStep(s, Op(true));
      StuckDriving(Step(s, Op(true)), k - 1);
    }
  }

  /**
   When a rotation can be retried: an attempt with a fresh password and no failing
   command gets the Secret rewritten exactly when the first pod still accepts the
   Secret's password, that is, when no earlier attempt got as far as a cutover.
   */
  lemma RetryCompletesIff(s: State, password: Password)
    requires Inv(s) && s.pc == Idle && s.asked != "" && s.asked != s.done && password !in s.used
    ensures (exists k: nat :: Drive(Step(s, Begin(password)), k).secret == password) <==> s.secret in s.pods[0].def
    ensures s.secret in s.pods[0].def <==> !s.cut
  {
    var b := Step(s, Begin(password));
    AskOrBegin(s, Begin(password));
    if s.cut {
      forall k: nat ensures Drive(b, k).secret != password { StuckDriving(b, k); }
    } else {
      assert Accepts(s.pods[0], s.secret);
      var k := Completes(b);
      assert Drive(b, k).secret == password;
    }
  }

  /** No token, or one already recorded, starts no rotation until the annotation changes. */
  lemma {:induction false} RunsOnce(s: State, events: seq<Event>)
    requires Inv(s) && s.pc == Idle && (s.asked == "" || s.done == s.asked)
    requires forall e :: e in events ==> !e.Ask?
    ensures Exec(s, events) == s
  {
    if events != [] { RunsOnce(s, events[..|events| - 1]); }
  }

  /**
   An annotation changed while an attempt ran is not lost: the next attempt starts exactly when it
   differs from the token recorded.
   */
  lemma NextAttemptIff(s: State, password: Password)
    requires Inv(s) && s.pc == WriteToken && password !in s.used
    ensures var t := Step(s, Op(true)); Step(t, Begin(password)).pc == AddNew(0, 0) <==>
          s.asked != "" && s.asked != s.token
  {
  }

  // ------------------------------------- replica links during the add-new pass

  lemma KnownCommand(p: Pod, c: nat, x: Password, used: set<Password>)
    requires KnownPod(p, used) && x in used
    ensures KnownPod(AddCommand(p, |p.managed|, c, x), used) && KnownPod(CutCommand(p, |p.managed|, c, x), used)
  {
  }

  /** t differs from s in at most the pod the attempt is at, by one command of its pass. */
  ghost predicate OneCommand(s: State, t: State) {
    || t.pods == s.pods
    || (s.pc.AddNew? && s.pc.pod < |s.pods| && |s.pods[s.pc.pod].managed| == s.users
        && t.pods == s.pods[s.pc.pod := AddCommand(s.pods[s.pc.pod], s.users, s.pc.cmd, s.next)])
    || (s.pc.Cutover? && s.pc.pod < |s.pods| && |s.pods[s.pc.pod].managed| == s.users
        && t.pods == s.pods[s.pc.pod := CutCommand(s.pods[s.pc.pod], s.users, s.pc.cmd, s.next)])
  }

  lemma OneCommandOp(s: State)
    requires Shaped(s) && InRange(s)
    ensures OneCommand(s, Step(s, Op(true)))
    ensures var t := Step(s, Op(true)); t.users == s.users && t.used == s.used && t.next == s.next
  {
  }

  /** A step rewrites at most one pod, by one command. */
  lemma OnePod(s: State, e: Event)
    ensures OneCommand(s, Step(s, e))
    ensures var t := Step(s, e); t.users == s.users && s.used <= t.used && t.next in t.used + {s.next}
  {
    if Shaped(s) && InRange(s) && e == Op(true) { OneCommandOp(s); }
  }

  lemma KnownStep(s: State, e: Event)
    requires Known(s)
    ensures Known(Step(s, e)) && s.used <= Step(s, e).used
  {
    var t := Step(s, e);
    OnePod(s, e);
    forall i | 0 <= i < |t.pods| ensures KnownPod(t.pods[i], t.used) {
      assert KnownPod(s.pods[i], s.used);
      if (s.pc.AddNew? || s.pc.Cutover?) && i == s.pc.pod { KnownCommand(s.pods[i], s.pc.cmd, s.next, s.used); }
    }
  }

  lemma {:induction false} KnownExec(s: State, events: seq<Event>)
    requires Known(s)
    ensures Known(Exec(s, events)) && s.used <= Exec(s, events).used
  {
    if events != [] {
      KnownExec(s, events[..|events| - 1]);
      KnownStep(Exec(s, events[..|events| - 1]), events[|events| - 1]);
    }
  }

  /** Pod p, as the attempt found it, after c commands of the add-new pass; all of them when done. */
  ghost predicate Adopted(p: Pod, q: Pod, x: Password, c: nat, done: bool) {
    && |q.managed| == |p.managed| > 0
    && q.managed[0] == (if done || c > 1 then p.managed[0] + {x} else p.managed[0])
    && q.masterauth == (if done then x else p.masterauth)
  }

  /** The pass begun in b has reached t. */
  ghost predicate PassAt(b: State, t: State) {
    && t.pc.AddNew? && t.next == b.next && |t.pods| == |b.pods| && t.pc.cmd <= t.users + 1 && t.users > 0
    && forall k :: 0 <= k < |t.pods| ==>
          Adopted(b.pods[k], t.pods[k], b.next, if k == t.pc.pod then t.pc.cmd else 0, k < t.pc.pod)
  }

  lemma PassStep(b: State, t: State, e: Event)
    requires PassAt(b, t) && Step(t, e).pc.AddNew?
    ensures PassAt(b, Step(t, e))
  {
    var u := Step(t, e);
    forall k | 0 <= k < |u.pods|
      ensures Adopted(b.pods[k], u.pods[k], b.next, if k == u.pc.pod then u.pc.cmd else 0, k < u.pc.pod)
    {
      assert Adopted(b.pods[k], t.pods[k], b.next, if k == t.pc.pod then t.pc.cmd else 0, k < t.pc.pod);
    }
  }

  /** No command starts an add-new pass. */
  lemma NoCommandStarts(s: State)
    requires Shaped(s) && InRange(s) && Step(s, Op(true)).pc.AddNew?
    ensures s.pc.AddNew? && Step(s, Op(true)).next == s.next
  {
  }

  /** A password in use is never drawn again, so a pass is only ever entered from itself. */
  lemma SamePass(s: State, e: Event, x: Password)
    requires x in s.used && Step(s, e).pc.AddNew? && Step(s, e).next == x
    ensures s.pc.AddNew? && s.next == x
  {
    if Shaped(s) && InRange(s) && e == Op(true) { NoCommandStarts(s); }
  }

  /** As long as a run is in the pass of that password, it is where the pass begun in b has got. */
  lemma {:induction false} PassExec(b: State, events: seq<Event>)
    requires Shaped(b) && b.users > 0 && b.pc == AddNew(0, 0) && b.next in b.used
    ensures var t := Exec(b, events); b.next in t.used && (t.pc.AddNew? && t.next == b.next ==> PassAt(b, t))
  {
    if events == [] {
      assert forall k :: 0 <= k < |b.pods| ==> |b.pods[k].managed| == b.users;
    } else {
      var before, e := events[..|events| - 1], events[|events| - 1];
      var s := Exec(b, before);
      PassExec(b, before);
      var t := Step(s, e);
      OnePod(s, e);
      if t.pc.AddNew? && t.next == b.next {
        SamePass(s, e, b.next);
        PassStep(b, s, e);
      }
    }
  }

  /** No pod from the i-th on presents a masterauth some pod rejects. */
  ghost predicate LinksFrom(s: State, i: nat) {
    forall j, k :: i <= j < |s.pods| && 0 <= k < |s.pods| && 0 < |s.pods[k].managed| ==>
          s.pods[j].masterauth in s.pods[k].managed[0]
  }

  lemma PassLinksIff(b: State, t: State)
    requires PassAt(b, t) && t.pc.pod < |t.pods|
    requires forall k :: 0 <= k < |b.pods| && |b.pods[k].managed| > 0 ==>
          b.next !in b.pods[k].managed[0] && b.next != b.pods[k].masterauth
    ensures var i, c := t.pc.pod, t.pc.cmd;
            LinksAccepted(t) <==> LinksFrom(b, i) && (i == 0 || (i + 1 == |t.pods| && c > 1))
  {
    var i, c := t.pc.pod, t.pc.cmd;
    forall k | 0 <= k < |t.pods| ensures Adopted(b.pods[k], t.pods[k], b.next, if k == i then c else 0, k < i) {}
    if LinksAccepted(t) {
      forall j, k | i <= j < |b.pods| && 0 <= k < |b.pods| ensures b.pods[j].masterauth in b.pods[k].managed[0] {
        assert t.pods[j].masterauth in t.pods[k].managed[0];
      }
      if i > 0 {
        assert t.pods[0].masterauth in t.pods[i].managed[0] && t.pods[0].masterauth in t.pods[|t.pods| - 1].managed[0];
      }
    } else {
      var j, k :| 0 <= j < |t.pods| && 0 <= k < |t.pods| && t.pods[j].masterauth !in t.pods[k].managed[0];
      assert i <= j ==> b.pods[j].masterauth !in b.pods[k].managed[0];
    }
  }

  lemma GapOfAttempt(a: State, password: Password, after: seq<Event>)
    requires Inv(a) && Known(a) && a.users > 0 && LinksAccepted(a)
    requires a.pc == Idle && a.asked != "" && a.asked != a.done && password !in a.used
    requires var t := Exec(Step(a, Begin(password)), after); t.pc.AddNew? && t.next == password
    ensures var t := Exec(Step(a, Begin(password)), after);
            && (LinksAccepted(t) <==> t.pc.pod == 0 || (t.pc.pod + 1 == |t.pods| && t.pc.cmd > 1))
            && Step(t, Op(false)) == Abort(t)
  {
    var b := Started(a, password);
    var t := Exec(b, after);
    BeginKeeps(a, password);
    ExecKeeps(b, after);
    PassExec(b, after);
    forall k | 0 <= k < |b.pods| ensures b.next !in b.pods[k].managed[0] && b.next != b.pods[k].masterauth {
      assert KnownPod(a.pods[k], a.used);
    }
    assert LinksFrom(b, t.pc.pod);
    PassLinksIff(b, t);
  }

  lemma {:induction false} UsersKept(s: State, events: seq<Event>)
    ensures Exec(s, events).users == s.users
  {
    if events != [] {
      UsersKept(s, events[..|events| - 1]);
      OnePod(Exec(s, events[..|events| - 1]), events[|events| - 1]);
    }
  }

  /**
   The add-new pass drops replica links. In any run, an attempt that starts with every
   masterauth accepted has, at the c-th command on the i-th pod, every masterauth accepted
   exactly when it is still at the first pod, or at the last one with its replication user
   done: from the first adoption until the last pod accepts the password some link is
   rejected. A command failing there ends the attempt and leaves the links as they are.
   */
  lemma AdoptionGap(s: State, before: seq<Event>, password: Password, after: seq<Event>)
    requires Init(s) && s.users > 0
    requires var a := Exec(s, before);
             a.pc == Idle && a.asked != "" && a.asked != a.done && password !in a.used && LinksAccepted(a)
    requires var t := Exec(Step(Exec(s, before), Begin(password)), after); t.pc.AddNew? && t.next == password
    ensures var t := Exec(Step(Exec(s, before), Begin(password)), after);
            && (LinksAccepted(t) <==> t.pc.pod == 0 || (t.pc.pod + 1 == |t.pods| && t.pc.cmd > 1))
            && Step(t, Op(false)).pc == Idle && (LinksAccepted(Step(t, Op(false))) <==> LinksAccepted(t))
  {
    var a := Exec(s, before);
    InitInv(s);
    ExecKeeps(s, before);
    UsersKept(s, before);
    KnownExec(s, before);
    GapOfAttempt(a, password, after);
  }

  /** While no attempt runs, nothing but a new one touches the links: the gap of a failed pass stays. */
  lemma {:induction false} GapStays(s: State, events: seq<Event>)
    requires s.pc == Idle && forall e :: e in events ==> !e.Begin?
    ensures Exec(s, events).pods == s.pods && Exec(s, events).pc == Idle
  {
    if events != [] {
      GapStays(s, events[..|events| - 1]);
      assert events[|events| - 1] in events;
    }
  }

  // ------------------------------------------------------------- pod restarts

  /** users.acl as the start-up script writes it: every operator-managed user with the one password. */
  function Seeded(users: nat, x: Password): (set<Password>, seq<set<Password>>) { ({x}, seq(users, i => {x})) }

  /**
   A pod restarts on the Secret's password: it keeps its users.acl if that carries it, and has it
   reseeded otherwise.
   */
  function RestartedPod(p: Pod, x: Password): Pod {
    var acl := if p.aclfile.0 == {x} then p.aclfile else Seeded(|p.managed|, x);
    Pod(acl.0, acl.1, x, x, acl)
  }

  function With(s: State, i: nat, p: Pod): State
    requires i < |s.pods|
  {
    s.(pods := s.pods[i := p])
  }

  function Restart(s: State, i: nat): State
    requires i < |s.pods|
  {
    With(s, i, RestartedPod(s.pods[i], s.secret))
  }

  /** Saved files list every managed user with what `default` has: they are written at start-up or after a cutover. */
  ghost predicate Saved(p: Pod) {
    |p.aclfile.1| == |p.managed| && forall k :: 0 <= k < |p.managed| ==> p.aclfile.1[k] == p.aclfile.0
  }

  ghost predicate AllSaved(s: State) { forall i :: 0 <= i < |s.pods| ==> Saved(s.pods[i]) }

  lemma SavedStep(s: State, e: Event)
    requires Inv(s) && AllSaved(s)
    ensures AllSaved(Step(s, e))
  {
    OnePod(s, e);
    var t := Step(s, e);
    forall i | 0 <= i < |t.pods| ensures Saved(t.pods[i]) {
      assert Saved(s.pods[i]);
      if s.pc.Cutover? && i == s.pc.pod { assert Cut(s.pods[i], s.users, s.pc.cmd, s.next); }
    }
  }

  lemma {:induction false} SavedExec(s: State, events: seq<Event>)
    requires Inv(s) && AllSaved(s)
    ensures AllSaved(Exec(s, events))
  {
    if events != [] {
      SavedExec(s, events[..|events| - 1]);
      ExecKeeps(s, events[..|events| - 1]);
      SavedStep(Exec(s, events[..|events| - 1]), events[|events| - 1]);
    }
  }

  /** Whatever it accepted before, a restarted pod accepts and presents the Secret's password only. */
  lemma OnlySecret(p: Pod, x: Password)
    requires Saved(p)
    ensures var q := RestartedPod(p, x);
            && q.def == {x} && |q.managed| == |p.managed| && (forall k :: 0 <= k < |q.managed| ==> q.managed[k] == {x})
            && q.masterauth == x && Saved(q)
  {
  }

  /** The links not involving pod i. */
  ghost predicate OtherLinks(s: State, i: nat) {
    forall j, k :: 0 <= j < |s.pods| && 0 <= k < |s.pods| && j != i && k != i && 0 < |s.pods[k].managed| ==>
      s.pods[j].masterauth in s.pods[k].managed[0]
  }

  /** The other pods present and accept the Secret's password. */
  ghost predicate OthersOn(s: State, i: nat) {
    forall k :: 0 <= k < |s.pods| && k != i && 0 < |s.pods[k].managed| ==>
      s.pods[k].masterauth == s.secret && s.secret in s.pods[k].managed[0]
  }

  /**
   After a restart every replica link is accepted exactly when the other pods still present and
   accept the Secret's password.
   */
  lemma RestartLinksIff(s: State, i: nat)
    requires Shaped(s) && s.users > 0 && AllSaved(s) && i < |s.pods|
    ensures LinksAccepted(Restart(s, i)) <==> OtherLinks(s, i) && OthersOn(s, i)
  {
    var t := Restart(s, i);
    OnlySecret(s.pods[i], s.secret);
    if LinksAccepted(t) {
      forall k | 0 <= k < |s.pods| && k != i
        ensures s.pods[k].masterauth == s.secret && s.secret in s.pods[k].managed[0]
      {
        assert t.pods[k].masterauth in t.pods[i].managed[0] && t.pods[i].masterauth in t.pods[k].managed[0];
      }
      forall j, k | 0 <= j < |s.pods| && 0 <= k < |s.pods| && j != i && k != i
        ensures s.pods[j].masterauth in s.pods[k].managed[0]
      {
        assert t.pods[j].masterauth in t.pods[k].managed[0];
      }
    }
  }

  /** And every Sentinel is still let in exactly when none has switched to the new password. */
  lemma RestartSentinelsIff(s: State, i: nat)
    requires Shaped(s) && AllSaved(s) && i < |s.pods| && SentinelsAccepted(s)
    ensures SentinelsAccepted(Restart(s, i)) <==>
          forall j :: 0 <= j < |s.sentinels| ==> s.sentinels[j].authPass == s.secret
  {
    var t := Restart(s, i);
    OnlySecret(s.pods[i], s.secret);
    if SentinelsAccepted(t) {
      forall j | 0 <= j < |s.sentinels| ensures s.sentinels[j].authPass == s.secret {
        assert t.sentinels[j].authPass in t.pods[i].managed[1];
      }
    }
  }

  /**
   From the end of the add-new pass until the Secret is rewritten, any restart breaks a link,
   unless there is only one pod.
   */
  lemma RestartBreaksIff(s: State, i: nat)
    requires Inv(s) && AllSaved(s) && s.users > 0 && i < |s.pods| && PastAddNew(s.pc) && s.pc != WriteToken
    ensures LinksAccepted(Restart(s, i)) <==> |s.pods| == 1
  {
    RestartLinksIff(s, i);
    AllOnNext(s);
    if |s.pods| > 1 {
      var k := if i == 0 then 1 else 0;
      assert s.pods[k].masterauth == s.next;
      assert |s.pods[k].managed| == s.users;
    }
  }

  /**
   During the add-new pass of an attempt that found every pod on the Secret's password, a
   restart leaves every link accepted exactly when no other pod has adopted the new one yet.
   */
  lemma RestartInPassIff(b: State, t: State, i: nat)
    requires PassAt(b, t) && Shaped(t) && AllSaved(t) && i < |t.pods| && t.pc.pod < |t.pods|
    requires b.next != b.secret == t.secret && AllAccept(t, t.secret)
    requires forall k :: 0 <= k < |b.pods| ==> b.pods[k].masterauth == b.secret
    ensures LinksAccepted(Restart(t, i)) <==> t.pc.pod == 0 || (t.pc.pod == 1 && i == 0)
  {
    RestartLinksIff(t, i);
    var p := t.pc.pod;
    forall k | 0 <= k < |t.pods|
      ensures t.pods[k].masterauth == (if k < p then t.next else t.secret) && t.secret in t.pods[k].managed[0]
    {
      assert Adopted(b.pods[k], t.pods[k], b.next, if k == p then t.pc.cmd else 0, k < p);
      assert Accepts(t.pods[k], t.secret);
    }
    if p > 1 || (p == 1 && i != 0) {
      var k := if i == 0 then 1 else 0;
      assert k < p && k != i && t.pods[k].masterauth == t.next;
    }
  }

  /** The attempt is done with pod i. */
  predicate DoneWith(pc: Pc, i: nat) {
    (pc.Cutover? && i < pc.pod) || pc.SentinelCutover? || pc == WriteSecret || pc == WriteToken || pc == Idle
  }

  /** A cutover command on a later pod does not depend on pod i. */
  lemma CutWith(s: State, i: nat, p: Pod, q: nat, c: nat)
    requires Shaped(s) && i < q < |s.pods| && |p.managed| == s.users
    ensures CutStep(With(s, i, p), q, c) == With(CutStep(s, q, c), i, p)
  {
    assert s.pods[i := p][q] == s.pods[q];
    var x := CutCommand(s.pods[q], s.users, c, s.next);
    assert s.pods[i := p][q := x] == s.pods[q := x][i := p];
  }

  lemma ShapedWith(s: State, i: nat, p: Pod)
    requires Shaped(s) && i < |s.pods| && |p.managed| == s.users
    ensures Shaped(With(s, i, p))
  {
  }

  lemma StepWith(s: State, i: nat, p: Pod)
    requires Shaped(s) && InRange(s) && i < |s.pods| && |p.managed| == s.users && DoneWith(s.pc, i)
    ensures var t := Step(s, Op(true));
            |t.pods| == |s.pods| && Step(With(s, i, p), Op(true)) == With(t, i, p) && DoneWith(t.pc, i)
  {
    ShapedWith(s, i, p);
    if s.pc.Cutover? { CutWith(s, i, p, s.pc.pod, s.pc.cmd); }
  }

  lemma {:induction false} DriveWith(s: State, i: nat, p: Pod, k: nat)
    requires Inv(s) && i < |s.pods| && |p.managed| == s.users && DoneWith(s.pc, i)
    ensures |Drive(s, k).pods| == |s.pods| && Drive(With(s, i, p), k) == With(Drive(s, k), i, p)
    decreases k
  {
    if k > 0 {
      StepWith(s, i, p);
      StepKeeps(s, Op(true));
      OnePod(s, Op(true));
      DriveWith(Step(s, Op(true)), i, p, k - 1);
    } else {
      assert Drive(With(s, i, p), 0) == With(Drive(s, 0), i, p);
    }
  }

  /**
   A pod that restarts between its cutover and the Secret write is stranded: the attempt
   completes with every command succeeding, and the pod rejects the password the Secret then holds.
   */
  lemma RestartStrands(s: State, i: nat) returns (k: nat)
    requires Inv(s) && AllSaved(s) && i < |s.pods| && DoneWith(s.pc, i) && s.pc != Idle && s.pc != WriteToken
    ensures var t := Drive(Restart(s, i), k);
            && t.pc == Idle && t.secret == s.next && i < |t.pods| && t.secret !in t.pods[i].def
  {
    k := Completes(s);
    OnlySecret(s.pods[i], s.secret);
    DriveWith(s, i, RestartedPod(s.pods[i], s.secret), k);
  }

  // -------------------------------------------------------- the loops as code

  lemma ExecNext(s: State, events: seq<Event>, e: Event)
    ensures Exec(s, events + [e]) == Step(Exec(s, events), e)
  {
    assert (events + [e])[..|events|] == events;
  }

  /** `events` lead from s0 to s, where the attempt is at pc. */
  ghost predicate Reached(s0: State, events: seq<Event>, s: State, pc: Pc) {
    && Inv(s0) && s == Exec(s0, events) && s.pc == pc && (pc != Idle ==> !Stuck(s))
    && s.users == s0.users && |s.pods| == |s0.pods| && |s.sentinels| == |s0.sentinels|
    && s.next == s0.next && s.token == s0.token
  }

  lemma CommandMoves(s0: State, events: seq<Event>, s: State, pc: Pc, ok: bool)
    requires Reached(s0, events, s, pc) && pc != Idle
    ensures Reached(s0, events + [Op(ok)], Step(s, Op(ok)),
                    if ok then NextPc(pc, s0.users, |s0.pods|, |s0.sentinels|) else Idle)
  {
    ExecKeeps(s0, events);
    DialsThroughout(s);
    StepMoves(s);
    ExecNext(s0, events, Op(ok));
  }

  /** The two last writes of an attempt: the Secret, then the token. */
  lemma Recorded(s0: State, events: seq<Event>)
    requires Inv(s0) && Exec(s0, events).pc == WriteSecret
    ensures var r := Exec(s0, events); var s := Exec(s0, events + [Op(true)] + [Op(true)]);
            s.secret == r.next && s.done == r.token && AllAccept(s, r.next)
  {
    ExecKeeps(s0, events);
    ExecKeeps(s0, events + [Op(true)] + [Op(true)]);
    ExecNext(s0, events, Op(true));
    ExecNext(s0, events + [Op(true)], Op(true));
  }

  /**
   The commands of an attempt, issued one by one; the first `budget` of them succeed
   and the next one ends the attempt.
   */
  class Session {
    ghost const s0: State
    const budget: nat
    var s: State
    var issued: nat
    ghost var events: seq<Event>

    ghost predicate At(pc: Pc)
      reads this
    {
      Reached(s0, events, s, pc) && |events| == issued
    }

    constructor (s0: State, budget: nat)
      requires Inv(s0) && s0.pc == AddNew(0, 0) && !s0.cut
      ensures At(AddNew(0, 0)) && this.s0 == s0 && this.budget == budget && issued == 0
    {
      this.s0, this.budget, this.s, issued, events := s0, budget, s0, 0, [];
    }

    /** One command: the attempt moves on, or ends. */
    method Command(pc: Pc) returns (ok: bool)
      requires At(pc) && pc != Idle
      modifies this
      ensures ok == (old(issued) < budget) && issued == old(issued) + 1 && events == old(events) + [Op(ok)]
      ensures At(if ok then NextPc(pc, s0.users, |s0.pods|, |s0.sentinels|) else Idle)
    {
      CommandMoves(s0, events, s, pc, issued < budget);
      ok := issued < budget;
      events := events + [Op(ok)];
      s, issued := Step(s, Op(ok)), issued + 1;
    }

    /** onEachPod: every command of a pass on every pod, in order, up to the first failure. */
    method OnEachPod(cutover: bool) returns (ok: bool)
      requires At(if cutover then Cutover(0, 0) else AddNew(0, 0)) && issued <= budget
      modifies this
      ensures ok <==> issued <= budget
      ensures At(if !ok then Idle else if cutover then AfterCutover(s0) else AfterAdd(s0))
    {
      var pods := |s.pods|;
      var i := 0;
      while i < pods
        invariant 0 <= i <= pods == |s0.pods| && issued <= budget
        invariant i < pods ==> At(First(cutover, i))
        invariant i == pods ==> At(if cutover then AfterCutover(s0) else AfterAdd(s0))
      {
        ok := OnPod(cutover, i);
        if !ok { return; }
        i := i + 1;
      }
      ok := true;
    }

    function First(cutover: bool, i: nat): Pc { if cutover then Cutover(i, 0) else AddNew(i, 0) }

    /** One pod's commands of a pass. */
    method OnPod(cutover: bool, i: nat) returns (ok: bool)
      requires i < |s0.pods| && At(First(cutover, i)) && issued <= budget
      modifies this
      ensures ok <==> issued <= budget
      ensures At(if !ok then Idle else if i + 1 < |s0.pods| then First(cutover, i + 1)
                 else if cutover then AfterCutover(s0) else AfterAdd(s0))
    {
      var cmds := s.users + if cutover then 3 else 2;
      var c := 0;
      while c < cmds - 1
        invariant 0 <= c < cmds == s0.users + (if cutover then 3 else 2) && issued <= budget
        invariant At(if cutover then Cutover(i, c) else AddNew(i, c))
      {
        ok := Command(if cutover then Cutover(i, c) else AddNew(i, c));
        if !ok { return; }
        c := c + 1;
      }
      ok := Command(if cutover then Cutover(i, c) else AddNew(i, c));
    }

    function AtSentinel(cutover: bool, j: nat): Pc { if cutover then SentinelCutover(j) else SentinelAdd(j) }

    /** rotateSentinelPassword for the add or the cutover step, over every Sentinel. */
    method OnEachSentinel(cutover: bool) returns (ok: bool)
      requires At(AtSentinel(cutover, 0)) && issued <= budget && s0.sentinels != []
      modifies this
      ensures ok <==> issued <= budget
      ensures At(if !ok then Idle else if cutover then WriteSecret else SentinelSwitch(0, 0))
    {
      var sentinels := |s.sentinels|;
      var j := 0;
      while j < sentinels
        invariant 0 <= j <= sentinels == |s0.sentinels| && issued <= budget
        invariant At(if j < sentinels then AtSentinel(cutover, j) else if cutover
              then WriteSecret else SentinelSwitch(0, 0))
      {
        ok := Command(AtSentinel(cutover, j));
        if !ok { return; }
        j := j + 1;
      }
      ok := true;
    }

    /** The switch step sends two commands to each Sentinel. */
    method SwitchSentinel(j: nat) returns (ok: bool)
      requires j < |s0.sentinels| && At(SentinelSwitch(j, 0)) && issued <= budget
      modifies this
      ensures ok <==> issued <= budget
      ensures At(if !ok then Idle else if j + 1 < |s0.sentinels| then SentinelSwitch(j + 1, 0) else Cutover(0, 0))
    {
      ok := Command(SentinelSwitch(j, 0));
      if !ok { return; }
      ok := Command(SentinelSwitch(j, 1));
    }

    method SwitchEachSentinel() returns (ok: bool)
      requires At(SentinelSwitch(0, 0)) && issued <= budget && s0.sentinels != []
      modifies this
      ensures ok <==> issued <= budget
      ensures At(if ok then Cutover(0, 0) else Idle)
    {
      var sentinels := |s.sentinels|;
      var j := 0;
      while j < sentinels
        invariant 0 <= j <= sentinels == |s0.sentinels| && issued <= budget
        invariant At(if j < sentinels then SentinelSwitch(j, 0) else Cutover(0, 0))
      {
        ok := SwitchSentinel(j);
        if !ok { return; }
        j := j + 1;
      }
      ok := true;
    }

    /** applyPasswordToPods: add-new, the Sentinels, cutover, the Sentinels again. */
    method ApplyPasswordToPods() returns (ok: bool)
      requires At(AddNew(0, 0)) && issued <= budget
      modifies this
      ensures ok <==> issued <= budget
      ensures At(if ok then WriteSecret else Idle)
    {
      ok := OnEachPod(false);
      if !ok { return; }
      if |s.sentinels| > 0 {
        ok := OnEachSentinel(false);
        if !ok { return; }
        ok := SwitchEachSentinel();
        if !ok { return; }
      }
      ok := OnEachPod(true);
      if !ok { return; }
      if |s.sentinels| > 0 { ok := OnEachSentinel(true); }
    }

    /**
     The attempt of reconcilePasswordRotation: it ends with the Secret rewritten and
     the token recorded exactly when no command failed; in every case what it did is
     a run of the protocol, so all that is proved of runs holds of it.
     */
    method Rotate() returns (ok: bool)
      requires At(AddNew(0, 0)) && issued <= budget
      modifies this
      ensures ok <==> issued <= budget
      ensures At(Idle)
      ensures ok ==> s.secret == s0.next && s.done == s0.token && AllAccept(s, s0.next)
    {
      ok := ApplyPasswordToPods();
      if !ok { return; }
      ghost var before := events;
      ok := Command(WriteSecret);
      if !ok { return; }
      ok := Command(WriteToken);
      if ok { Recorded(s0, before); }
    }
  }
}
