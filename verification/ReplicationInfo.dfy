/**
 Reading a master's INFO replication section: whether its replicas are linked, and
 whether they have caught up. The section is a map from field names to text; a replica's
 line is a comma-separated list of key=value pairs.
 */
module ReplicationInfo {
  import opened Common
  import opened Text
  import Handover

  type Info = map<string, string>

  /** A missing field reads as the empty string. */
  function Get(info: Info, key: string): string { if key in info then info[key] else "" }

  function SlaveKey(i: nat): string { "slave" + Itoa(i) }

  const ONLINE: string := "state=online"

  ghost predicate OccursAt(s: string, pattern: string, i: int) {
    0 <= i && i + |pattern| <= |s| && s[i..i + |pattern|] == pattern
  }

  ghost predicate Contains(s: string, pattern: string) { exists i :: OccursAt(s, pattern, i) }

  /** strings.Contains. */
  method ContainsText(s: string, pattern: string) returns (found: bool)
    ensures found == Contains(s, pattern)
  {
    var i := 0;
    while i + |pattern| <= |s|
      invariant forall j :: 0 <= j < i ==> !OccursAt(s, pattern, j)
    {
      if s[i..i + |pattern|] == pattern {
        assert OccursAt(s, pattern, i);
        return true;
      }
      i := i + 1;
    }
    found := false;
  }

  // ------------------------------------------------------------ replicasLinked

  ghost predicate Linked(info: Info, want: int) {
    var n := Atoi(Get(info, "connected_slaves"));
    n.Some? && n.value >= want && forall i: nat :: i < n.value ==> Contains(Get(info, SlaveKey(i)), ONLINE)
  }

  method ReplicasLinked(info: Info, want: int) returns (ok: bool)
    ensures ok == Linked(info, want)
  {
    var n := Atoi(Get(info, "connected_slaves"));
    if n.None? || n.value < want { return false; }
    var i := 0;
    while i < n.value
      invariant forall j: nat :: j < i ==> Contains(Get(info, SlaveKey(j)), ONLINE)
    {
      var found := ContainsText(Get(info, SlaveKey(i)), ONLINE);
      if !found { return false; }
      i := i + 1;
    }
    ok := true;
  }

  // ---------------------------------------------------------- replicasCaughtUp

  /** The pairs of a line; a key given twice keeps its last value, a part without '=' is skipped. */
  function Pairs(parts: seq<string>): Info {
    if parts == [] then map[]
    else
      var front := Pairs(parts[..|parts| - 1]);
      match Cut(parts[|parts| - 1], '=')
      case None => front
      case Some((k, v)) => front[k := v]
  }

  predicate LineCaughtUp(line: string, masterOffset: int) {
    var fields := Pairs(Split(line, ','));
    var offset := Atoi(Get(fields, "offset"));
    offset.Some? && Get(fields, "state") == "online" && offset.value >= masterOffset
  }

  /** The first n lines have all caught up. */
  predicate LinesCaughtUp(info: Info, n: nat, masterOffset: int) {
    n == 0 || (LinesCaughtUp(info, n - 1, masterOffset) && LineCaughtUp(Get(info, SlaveKey(n - 1)), masterOffset))
  }

  predicate CaughtUp(info: Info) {
    var masterOffset, n := Atoi(Get(info, "master_repl_offset")), Atoi(Get(info, "connected_slaves"));
    && masterOffset.Some? && n.Some? && n.value != 0
    && (n.value < 0 || LinesCaughtUp(info, n.value, masterOffset.value))
  }

  lemma {:induction false} EarlierLines(info: Info, i: nat, n: nat, masterOffset: int)
    requires i <= n && LinesCaughtUp(info, n, masterOffset)
    ensures LinesCaughtUp(info, i, masterOffset)
  {
    if i < n { EarlierLines(info, i, n - 1, masterOffset); }
  }

  method ReadPairs(line: string) returns (fields: Info)
    ensures fields == Pairs(Split(line, ','))
  {
    fields := map[];
    var parts := Split(line, ',');
    for k := 0 to |parts|
      invariant fields == Pairs(parts[..k])
    {
      assert parts[..k + 1][..k] == parts[..k];
      var kv := Cut(parts[k], '=');
      if kv.Some? { fields := fields[kv.value.0 := kv.value.1]; }
    }
    assert parts[..|parts|] == parts;
  }

  /** The body of the loop over the replicas. */
  method CheckLine(line: string, masterOffset: int) returns (ok: bool)
    ensures ok == LineCaughtUp(line, masterOffset)
  {
    var fields := ReadPairs(line);
    var offset := Atoi(Get(fields, "offset"));
    ok := !(offset.None? || Get(fields, "state") != "online" || offset.value < masterOffset);
  }

  method CheckLines(info: Info, n: nat, masterOffset: int) returns (ok: bool)
    ensures ok == LinesCaughtUp(info, n, masterOffset)
  {
    for i := 0 to n
      invariant LinesCaughtUp(info, i, masterOffset)
    {
      var caughtUp := CheckLine(Get(info, SlaveKey(i)), masterOffset);
      if !caughtUp {
        if LinesCaughtUp(info, n, masterOffset) { EarlierLines(info, i + 1, n, masterOffset); }
        return false;
      }
    }
    ok := true;
  }

  method ReplicasCaughtUp(info: Info) returns (ok: bool)
    ensures ok == CaughtUp(info)
  {
    var masterOffset := Atoi(Get(info, "master_repl_offset"));
    if masterOffset.None? { return false; }
    var n := Atoi(Get(info, "connected_slaves"));
    if n.None? || n.value == 0 { return false; }
    if n.value < 0 { return true; }
    ok := CheckLines(info, n.value, masterOffset.value);
  }

  // ------------------------------------------------- what a master's INFO shows

  /** A replica as a master prints it. */
  datatype Line = Line(ip: string, port: nat, state: string, offset: nat, lag: nat)

  predicate Plain(s: string) { ',' !in s && '=' !in s }

  predicate PlainLine(line: Line) { Plain(line.ip) && Plain(line.state) && line.offset <= INT64_MAX }

  function Pair(k: string, v: string): string { k + "=" + v }

  function Parts(line: Line): seq<string> {
    [Pair("ip", line.ip), Pair("port", Itoa(line.port)), Pair("state", line.state),
     Pair("offset", Itoa(line.offset)), Pair("lag", Itoa(line.lag))]
  }

  function Printed(line: Line): string { Join(Parts(line), ',') }

  lemma PlainNumber(n: nat)
    ensures Plain(Itoa(n))
  {
    ItoaDigits(n);
    DigitsLack(Itoa(n), ',');
    DigitsLack(Itoa(n), '=');
  }

  lemma PartsLackComma(line: Line)
    requires PlainLine(line)
    ensures forall p :: p in Parts(line) ==> ',' !in p
  {
    PlainNumber(line.port);
    PlainNumber(line.offset);
    PlainNumber(line.lag);
  }

  lemma PairCut(k: string, v: string)
    requires '=' !in k
    ensures Cut(Pair(k, v), '=') == Some((k, v))
  {
    CutAt(k, '=', v);
  }

  lemma PairsGrow(parts: seq<string>, k: string, v: string)
    requires '=' !in k
    ensures Pairs(parts + [Pair(k, v)]) == Pairs(parts)[k := v]
  {
    PairCut(k, v);
    assert (parts + [Pair(k, v)])[..|parts|] == parts;
  }

  lemma LaterPair(parts: seq<string>, k: string, v: string, key: string)
    requires '=' !in k && k != key && key in Pairs(parts)
    ensures var all := Pairs(parts + [Pair(k, v)]); key in all && all[key] == Pairs(parts)[key]
  {
    PairsGrow(parts, k, v);
  }

  /** Reading the last three pairs, whatever stands before them. */
  lemma LastThree(parts: seq<string>, a: string, va: string, b: string, vb: string, c: string, vc: string)
    requires '=' !in a && '=' !in b && '=' !in c && a != b && a != c && b != c
    ensures var all := Pairs(parts + [Pair(a, va)] + [Pair(b, vb)] + [Pair(c, vc)]);
            Get(all, a) == va && Get(all, b) == vb
  {
    PairsGrow(parts, a, va);
    var p := parts + [Pair(a, va)];
    LaterPair(p, b, vb, a);
    PairsGrow(p, b, vb);
    var q := p + [Pair(b, vb)];
    LaterPair(q, c, vc, a);
    LaterPair(q, c, vc, b);
  }

  /** The pair loop reads back state and offset. */
  lemma PairsOfParts(line: Line)
    ensures Get(Pairs(Parts(line)), "state") == line.state
    ensures Get(Pairs(Parts(line)), "offset") == Itoa(line.offset)
  {
    assert "state"[0] == 's' && "offset"[0] == 'o' && "lag"[0] == 'l';
    LastThree(Parts(line)[..2], "state", line.state, "offset", Itoa(line.offset), "lag", Itoa(line.lag));
    assert Parts(line) == Parts(line)[..2] + [Parts(line)[2]] + [Parts(line)[3]] + [Parts(line)[4]];
  }

  lemma PrintedCaughtUp(line: Line, masterOffset: int)
    requires PlainLine(line)
    ensures LineCaughtUp(Printed(line), masterOffset) <==> line.state == "online" && line.offset >= masterOffset
  {
    PartsLackComma(line);
    SplitJoin(Parts(line), ',');
    PairsOfParts(line);
    AtoiItoa(line.offset);
  }

  // ------------------------------------------------ where "state=online" occurs

  lemma OccursLetters(s: string, pattern: string, i: int, k: nat)
    requires OccursAt(s, pattern, i) && k < |pattern|
    ensures s[i + k] == pattern[k]
  {
    assert s[i..i + |pattern|][k] == s[i + k];
  }

  /** A pattern without the separator occurs inside one part. */
  lemma {:induction false} OccursInPart(parts: seq<string>, c: char, pattern: string, i: int) returns (p: string)
    requires parts != [] && c !in pattern && pattern != "" && OccursAt(Join(parts, c), pattern, i)
    ensures p in parts && Contains(p, pattern)
  {
    var s := Join(parts, c);
    var n := |parts[0]|;
    if |parts| == 1 {
      p := parts[0];
    } else if i + |pattern| <= n {
      assert parts[0][i..i + |pattern|] == s[i..i + |pattern|];
      assert OccursAt(parts[0], pattern, i);
      p := parts[0];
    } else if i <= n {
      OccursLetters(s, pattern, i, n - i);
      assert false;
    } else {
      var rest := Join(parts[1..], c);
      assert s == (parts[0] + [c]) + rest;
      assert rest[i - n - 1..i - n - 1 + |pattern|] == s[i..i + |pattern|];
      p := OccursInPart(parts[1..], c, pattern, i - n - 1);
    }
  }

  /** In a plain pair the one '=' must match, so the key ends in "state" and the value starts with "online". */
  lemma OccursInPair(k: string, v: string)
    requires Plain(k) && Plain(v) && Contains(Pair(k, v), ONLINE)
    ensures |k| >= 5 && k[|k| - 5..] == "state" && "online" <= v
  {
    var s := Pair(k, v);
    var i :| OccursAt(s, ONLINE, i);
    OccursLetters(s, ONLINE, i, 5);
    assert s[|k|] == '=' && (forall j :: 0 <= j < |k| ==> s[j] == k[j]) && forall j :: 0 <= j < |v| ==>
          s[|k| + 1 + j] == v[j];
    assert i + 5 == |k|;
    assert k[|k| - 5..] == s[i..i + |ONLINE|][..5];
    assert v[..6] == s[i..i + |ONLINE|][6..];
  }

  lemma JoinFive(p: seq<string>, c: char)
    requires |p| == 5
    ensures Join(p, c) == p[0] + [c] + (p[1] + [c] + (p[2] + [c] + (p[3] + [c] + p[4])))
  {
    assert Join(p[4..], c) == p[4];
    assert p[3..][1..] == p[4..] && p[2..][1..] == p[3..] && p[1..][1..] == p[2..];
    assert Join(p[3..], c) == p[3] + [c] + p[4];
    assert Join(p[2..], c) == p[2] + [c] + Join(p[3..], c);
    assert Join(p[1..], c) == p[1] + [c] + Join(p[2..], c);
  }

  lemma PrintedContains(line: Line)
    requires PlainLine(line) && "online" <= line.state
    ensures Contains(Printed(line), ONLINE)
  {
    var p := Parts(line);
    var a, b := p[0] + "," + p[1] + ",", "," + p[3] + "," + p[4];
    JoinFive(p, ',');
    assert Printed(line) == a + p[2] + b;
    assert p[2] == ONLINE + line.state[6..];
    assert OccursAt(a + p[2] + b, ONLINE, |a|);
  }

  lemma OnlyStatePair(line: Line)
    requires PlainLine(line) && Contains(Printed(line), ONLINE)
    ensures "online" <= line.state
  {
    var i :| OccursAt(Printed(line), ONLINE, i);
    var p := OccursInPart(Parts(line), ',', ONLINE, i);
    PlainNumber(line.port);
    PlainNumber(line.offset);
    PlainNumber(line.lag);
    if p == Pair("state", line.state) { OccursInPair("state", line.state); }
    else if p == Pair("offset", Itoa(line.offset)) { OccursInPair("offset", Itoa(line.offset)); assert false; }
    else if p == Pair("ip", line.ip) { OccursInPair("ip", line.ip); assert false; }
    else if p == Pair("port", Itoa(line.port)) { OccursInPair("port", Itoa(line.port)); assert false; }
    else { OccursInPair("lag", Itoa(line.lag)); assert false; }
  }

  /** The substring test accepts every state that begins with "online". */
  lemma PrintedLinked(line: Line)
    requires PlainLine(line)
    ensures Contains(Printed(line), ONLINE) <==> "online" <= line.state
  {
    if "online" <= line.state { PrintedContains(line); }
    if Contains(Printed(line), ONLINE) { OnlyStatePair(line); }
  }

  // ------------------------------------------------------------ the two views

  /** The states a master prints. */
  predicate IsState(s: string) { s == "wait_bgsave" || s == "send_bulk" || s == "online" }

  ghost predicate ShowsLine(info: Info, h: Handover.State, i: nat, line: Line, r: nat) {
    && Get(info, SlaveKey(i)) == Printed(line) && PlainLine(line) && IsState(line.state)
    && r < |h.replicas| && line.offset == h.replicas[r].ack && (line.state == "online" <==> h.replicas[r].online)
  }

  /** `info` is the INFO of master `h`: its offset, and a line per connected replica in the order `lines` gives. */
  ghost predicate Shows(info: Info, h: Handover.State, lines: seq<Line>, who: seq<nat>) {
    && |lines| == |who| <= INT64_MAX && |h.stream| <= INT64_MAX
    && Get(info, "master_repl_offset") == Itoa(|h.stream|) && Get(info, "connected_slaves") == Itoa(|lines|)
    && (forall i, j :: 0 <= i < j < |who| ==> who[i] != who[j])
    && (forall r :: r in who <==> r in Handover.Listed(h))
    && forall i :: 0 <= i < |lines| ==> ShowsLine(info, h, i, lines[i], who[i])
  }

  lemma {:induction false} DistinctCount(who: seq<nat>, s: set<nat>)
    requires forall i, j :: 0 <= i < j < |who| ==> who[i] != who[j]
    requires forall r :: r in who <==> r in s
    ensures |who| == |s|
  {
    if who == [] {
      assert s == {};
    } else {
      var last := who[|who| - 1];
      assert last in s;
      DistinctCount(who[..|who| - 1], s - {last});
    }
  }

  lemma OnlineState(s: string)
    requires IsState(s)
    ensures "online" <= s <==> s == "online"
  {
    assert "online"[0] == 'o' && "wait_bgsave"[0] == 'w' && "send_bulk"[0] == 's';
  }

  lemma LineAgrees(info: Info, h: Handover.State, i: nat, line: Line, r: nat)
    requires ShowsLine(info, h, i, line, r)
    ensures Contains(Get(info, SlaveKey(i)), ONLINE) <==> h.replicas[r].online
    ensures LineCaughtUp(Get(info, SlaveKey(i)), |h.stream|) <==>
          h.replicas[r].online && h.replicas[r].ack >= |h.stream|
  {
    OnlineState(line.state);
    PrintedLinked(line);
    PrintedCaughtUp(line, |h.stream|);
  }

  /** On the INFO a master prints, the substring check answers exactly whether the listed replicas are linked. */
  lemma LinkedAgrees(info: Info, h: Handover.State, lines: seq<Line>, who: seq<nat>, want: nat)
    requires Shows(info, h, lines, who)
    ensures Linked(info, want) <==> Handover.ReplicasLinked(h, want)
  {
    DistinctCount(who, Handover.Listed(h));
    AtoiItoa(|lines|);
    forall i: nat | i < |lines| ensures Contains(Get(info, SlaveKey(i)), ONLINE) <==> h.replicas[who[i]].online {
      LineAgrees(info, h, i, lines[i], who[i]);
    }
    if Linked(info, want) {
      forall r | r in Handover.Listed(h) ensures h.replicas[r].online {
        var i: nat :| i < |who| && who[i] == r;
        assert Contains(Get(info, SlaveKey(i)), ONLINE);
      }
    }
    assert forall i: nat :: i < |who| ==> who[i] in Handover.Listed(h);
  }

  lemma {:induction false} LaggingLine(info: Info, n: nat, masterOffset: int) returns (i: nat)
    requires !LinesCaughtUp(info, n, masterOffset)
    ensures i < n && !LineCaughtUp(Get(info, SlaveKey(i)), masterOffset)
  {
    if LinesCaughtUp(info, n - 1, masterOffset) { i := n - 1; } else { i := LaggingLine(info, n - 1, masterOffset); }
  }

  lemma LinesAgree(info: Info, h: Handover.State, lines: seq<Line>, who: seq<nat>)
    requires Shows(info, h, lines, who)
    ensures LinesCaughtUp(info, |who|, |h.stream|)
       <==> forall r :: r in Handover.Listed(h) ==> h.replicas[r].online && h.replicas[r].ack >= |h.stream|
  {
    if LinesCaughtUp(info, |who|, |h.stream|) {
      forall r | r in Handover.Listed(h) ensures h.replicas[r].online && h.replicas[r].ack >= |h.stream| {
        var i: nat :| i < |who| && who[i] == r;
        EarlierLines(info, i + 1, |who|, |h.stream|);
        LineAgrees(info, h, i, lines[i], who[i]);
      }
    } else {
      var i := LaggingLine(info, |who|, |h.stream|);
      LineAgrees(info, h, i, lines[i], who[i]);
      assert who[i] in Handover.Listed(h);
    }
  }

  /** And the parsing check answers exactly whether they have all caught up. */
  lemma CaughtUpAgrees(info: Info, h: Handover.State, lines: seq<Line>, who: seq<nat>)
    requires Shows(info, h, lines, who)
    ensures CaughtUp(info) <==> Handover.ReplicasCaughtUp(h)
  {
    DistinctCount(who, Handover.Listed(h));
    AtoiItoa(|lines|);
    AtoiItoa(|h.stream|);
    LinesAgree(info, h, lines, who);
  }
}
