/**
 The CLUSTER NODES text: its parser, the slot counter and the grouping of nodes
 into shards.
 */
module ClusterNodes {
  import opened Common
  import opened Text

  datatype Node = Node(id: string, podName: string, flags: seq<string>, masterID: string,
                       slots: seq<string>, linkState: string) {
    predicate IsMaster() { "master" in flags }

    predicate IsHealthy() {
      linkState == "connected" && "fail" !in flags && "fail?" !in flags && "noaddr" !in flags
    }
  }

  // ------------------------------------------------------------------ parser

  /** podNameFromFQDN: up to the first ':' and then up to the first '.'. */
  function PodNameFromFQDN(s: string): string {
    var t := s[..Find(s, ':')];
    t[..Find(t, '.')]
  }

  function PodNameOf(address: string): string {
    match Cut(address, ',')
    case Some((_, hostname)) => PodNameFromFQDN(hostname)
    case None =>
      match Cut(address, '@')
      case Some((host, _)) => PodNameFromFQDN(host)
      case None => ""
  }

  predicate Transitional(token: string) { token != "" && token[0] == '[' }

  function StableSlots(tokens: seq<string>): seq<string> {
    if tokens == [] then []
    else
      var front := StableSlots(tokens[..|tokens| - 1]);
      if Transitional(tokens[|tokens| - 1]) then front else front + [tokens[|tokens| - 1]]
  }

  function ParseFields(fields: seq<string>): Node
    requires |fields| >= 8
  {
    Node(fields[0], PodNameOf(fields[1]), Split(fields[2], ','), if fields[3] != "-" then fields[3] else "",
         StableSlots(fields[8..]), fields[7])
  }

  function ParseLines(lines: seq<string>): seq<Node> {
    if lines == [] then []
    else
      var front := ParseLines(lines[..|lines| - 1]);
      var fields := Fields(lines[|lines| - 1]);
      if |fields| < 8 then front else front + [ParseFields(fields)]
  }

  function Parse(raw: string): seq<Node> { ParseLines(Split(TrimSpace(raw), '\n')) }

  /** parseClusterNodes: one entry per line of at least eight fields. */
  method ParseClusterNodes(raw: string) returns (nodes: seq<Node>)
    ensures nodes == Parse(raw)
  {
    nodes := [];
    var lines := Split(TrimSpace(raw), '\n');
    for i := 0 to |lines|
      invariant nodes == ParseLines(lines[..i])
    {
      assert lines[..i + 1][..i] == lines[..i];
      var fields := Fields(lines[i]);
      if |fields| < 8 { continue; }
      var slots: seq<string> := [];
      for k := 8 to |fields|
        invariant slots == StableSlots(fields[8..k])
      {
        assert fields[8..k + 1][..k - 8] == fields[8..k];
        if !Transitional(fields[k]) { slots := slots + [fields[k]]; }
      }
      assert fields[8..|fields|] == fields[8..];
      nodes := nodes + [Node(fields[0], PodNameOf(fields[1]), Split(fields[2], ','),
                             if fields[3] != "-" then fields[3] else "", slots, fields[7])];
    }
    assert lines[..|lines|] == lines;
  }

  // ----------------------------------------------------------------- printer

  /** One node as Valkey reports it: an address with or without an announced host name. */
  datatype Line = Line(id: string, address: string, hostname: Option<string>, flags: seq<string>,
                       master: Option<string>, ping: string, pong: string, epoch: string, link: string,
                       slots: seq<string>)

  /** No field is empty or contains a separator of the format. */
  ghost predicate Printable(n: Line) {
    && IsWord(n.id) && IsWord(n.address) && ',' !in n.address && '@' in n.address
    && (n.hostname.Some? ==> IsWord(n.hostname.value))
    && n.flags != [] && (forall f :: f in n.flags ==> IsWord(f) && ',' !in f)
    && (n.master.Some? ==> IsWord(n.master.value) && n.master.value != "-")
    && IsWord(n.ping) && IsWord(n.pong) && IsWord(n.epoch) && IsWord(n.link)
    && forall t :: t in n.slots ==> IsWord(t)
  }

  function AddressField(n: Line): string {
    if n.hostname.Some? then n.address + [','] + n.hostname.value else n.address
  }

  function Words(n: Line): seq<string> {
    [n.id, AddressField(n), Join(n.flags, ','), if n.master.Some? then n.master.value else "-",
     n.ping, n.pong, n.epoch, n.link] + n.slots
  }

  function PrintLine(n: Line): string { Join(Words(n), ' ') }

  function PrintLines(lines: seq<Line>): seq<string> {
    seq(|lines|, i requires 0 <= i < |lines| => PrintLine(lines[i]))
  }

  /** CLUSTER NODES: every line ends with a newline. */
  function Print(lines: seq<Line>): string {
    if lines == [] then "" else Join(PrintLines(lines), '\n') + "\n"
  }

  /** What the operator keeps of a line. */
  function Kept(n: Line): Node {
    Node(n.id,
         PodNameFromFQDN(if n.hostname.Some? then n.hostname.value else n.address[..Find(n.address, '@')]),
         n.flags, if n.master.Some? then n.master.value else "", StableSlots(n.slots), n.link)
  }

  lemma {:induction false} JoinedFlagsAreWord(flags: seq<string>)
    requires flags != [] && forall f :: f in flags ==> IsWord(f) && ',' !in f
    ensures IsWord(Join(flags, ','))
  {
    assert flags[0] in flags;
    if |flags| > 1 {
      var rest := Join(flags[1..], ',');
      JoinedFlagsAreWord(flags[1..]);
      var s := flags[0] + [','] + rest;
      forall i | 0 <= i < |s| ensures !IsSpace(s[i]) {
        if i > |flags[0]| { assert s[i] == rest[i - |flags[0]| - 1]; }
      }
    }
  }

  lemma WordsAreWords(n: Line)
    requires Printable(n)
    ensures forall w :: w in Words(n) ==> IsWord(w)
  {
    JoinedFlagsAreWord(n.flags);
    assert IsWord(AddressField(n));
    var head := [n.id, AddressField(n), Join(n.flags, ','), if n.master.Some? then n.master.value else "-",
                 n.ping, n.pong, n.epoch, n.link];
    assert forall w :: w in head ==> IsWord(w);
    assert Words(n) == head + n.slots;
  }

  lemma FieldsOfLine(n: Line)
    requires Printable(n)
    ensures Fields(PrintLine(n)) == Words(n)
  {
    WordsAreWords(n);
    FieldsJoin(Words(n));
  }

  lemma AddressParses(n: Line)
    requires Printable(n)
    ensures PodNameOf(AddressField(n)) == Kept(n).podName
  {
    if n.hostname.Some? { CutAt(n.address, ',', n.hostname.value); }
  }

  lemma WordsAt(n: Line)
    ensures var w := Words(n);
            && |w| >= 8 && w[0] == n.id && w[1] == AddressField(n) && w[2] == Join(n.flags, ',')
            && w[3] == (if n.master.Some? then n.master.value else "-") && w[7] == n.link && w[8..] == n.slots
  {
    assert Words(n)[8..] == n.slots;
  }

  lemma WordsParse(n: Line)
    requires Printable(n)
    ensures |Words(n)| >= 8 && ParseFields(Words(n)) == Kept(n)
  {
    WordsAt(n);
    AddressParses(n);
    SplitJoin(n.flags, ',');
  }

  /** Reading back one printed line. */
  lemma LineRoundTrip(n: Line)
    requires Printable(n)
    ensures |Fields(PrintLine(n))| >= 8 && ParseFields(Fields(PrintLine(n))) == Kept(n)
  {
    FieldsOfLine(n);
    WordsParse(n);
  }

  lemma {:induction false} JoinLacks(words: seq<string>, sep: char, c: char)
    requires c != sep && forall w :: w in words ==> c !in w
    ensures c !in Join(words, sep)
  {
    if |words| > 1 { JoinLacks(words[1..], sep, c); }
  }

  lemma {:induction false} JoinEnds(words: seq<string>, sep: char)
    requires words != [] && forall w :: w in words ==> w != "" && !IsSpace(w[0]) && !IsSpace(w[|w| - 1])
    ensures var s := Join(words, sep); s != "" && !IsSpace(s[0]) && !IsSpace(s[|s| - 1])
  {
    if |words| > 1 { JoinEnds(words[1..], sep); }
  }

  /** A printed line has no newline and starts and ends with a printing character. */
  lemma LineShape(n: Line)
    requires Printable(n)
    ensures '\n' !in PrintLine(n) && PrintLine(n) != ""
    ensures !IsSpace(PrintLine(n)[0]) && !IsSpace(PrintLine(n)[|PrintLine(n)| - 1])
  {
    WordsAreWords(n);
    assert IsSpace('\n');
    JoinLacks(Words(n), ' ', '\n');
    JoinEnds(Words(n), ' ');
  }

  lemma TrimPrinted(s: string)
    requires s != "" && !IsSpace(s[0]) && !IsSpace(s[|s| - 1])
    ensures TrimSpace(s + "\n") == s
  {
    assert (s + "\n")[0] == s[0];
    assert (s + "\n")[..|s|] == s;
    assert TrimRight(s) == s;
  }

  lemma ParseOneMore(lines: seq<string>, n: Line)
    requires Printable(n)
    ensures ParseLines(lines + [PrintLine(n)]) == ParseLines(lines) + [Kept(n)]
  {
    LineRoundTrip(n);
    assert (lines + [PrintLine(n)])[..|lines|] == lines;
  }

  /** The nodes kept of all lines. */
  function KeptLines(lines: seq<Line>): (nodes: seq<Node>)
    ensures |nodes| == |lines| && forall i :: 0 <= i < |lines| ==> nodes[i] == Kept(lines[i])
  {
    if lines == [] then [] else KeptLines(lines[..|lines| - 1]) + [Kept(lines[|lines| - 1])]
  }

  lemma PrintLinesLast(lines: seq<Line>)
    requires lines != []
    ensures PrintLines(lines) == PrintLines(lines[..|lines| - 1]) + [PrintLine(lines[|lines| - 1])]
  {
  }

  lemma {:induction false} ParseLinesAre(lines: seq<Line>)
    requires forall n :: n in lines ==> Printable(n)
    ensures ParseLines(PrintLines(lines)) == KeptLines(lines)
  {
    if lines != [] {
      var front := lines[..|lines| - 1];
      ParseLinesAre(front);
      PrintLinesLast(lines);
      ParseOneMore(PrintLines(front), lines[|lines| - 1]);
    }
  }

  /** A line no trimming touches and no newline splits. */
  predicate Clean(line: string) {
    '\n' !in line && line != "" && !IsSpace(line[0]) && !IsSpace(line[|line| - 1])
  }

  lemma {:induction false} CleanLines(lines: seq<Line>)
    requires forall n :: n in lines ==> Printable(n)
    ensures forall p :: p in PrintLines(lines) ==> Clean(p)
  {
    forall i | 0 <= i < |lines| ensures Clean(PrintLines(lines)[i]) { LineShape(lines[i]); }
  }

  /** Trimming and splitting recover the lines. */
  lemma LinesBack(printed: seq<string>)
    requires printed != [] && forall p :: p in printed ==> Clean(p)
    ensures Split(TrimSpace(Join(printed, '\n') + "\n"), '\n') == printed
  {
    JoinEnds(printed, '\n');
    TrimPrinted(Join(printed, '\n'));
    SplitJoin(printed, '\n');
  }

  lemma ParseNothing()
    ensures Parse("") == []
  {
    assert Split("", '\n') == [""];
    assert Fields("") == [] && [""][..0] == [];
  }

  /**
   parseClusterNodes undoes the printer: id, flags, master, link state, pod name and
   stable slot tokens come back, transitional slot markers are dropped.
   */
  lemma ParsePrint(lines: seq<Line>)
    requires forall n :: n in lines ==> Printable(n)
    ensures Parse(Print(lines)) == KeptLines(lines)
  {
    if lines == [] {
      ParseNothing();
    } else {
      CleanLines(lines);
      LinesBack(PrintLines(lines));
      ParseLinesAre(lines);
    }
  }

  // ------------------------------------------------------------------- slots

  /** Addition in a Go int32. */
  function Wrap32(n: int): (r: int)
    ensures -0x8000_0000 <= r < 0x8000_0000
  {
    if -0x8000_0000 <= n < 0x8000_0000 then n else (n + 0x8000_0000) % 0x1_0000_0000 - 0x8000_0000
  }

  function RangeCount(lo: Option<int>, hi: Option<int>): int {
    if lo.Some? && hi.Some? && hi.value >= lo.value then Wrap32(hi.value - lo.value + 1) else 0
  }

  function TokenCount(token: string): int {
    var i := Find(token, '-');
    if 0 < i < |token| then
      RangeCount(Atoi(token[..i]), Atoi(token[i + 1..]))
    else if Atoi(token).Some? then 1 else 0
  }

  function Total(tokens: seq<string>): (n: int)
    ensures -0x8000_0000 <= n < 0x8000_0000
  {
    if tokens == [] then 0 else Wrap32(Total(tokens[..|tokens| - 1]) + TokenCount(tokens[|tokens| - 1]))
  }

  /** slotsCount: tokens that are no number and no range count for nothing. */
  method SlotsCount(tokens: seq<string>) returns (total: int)
    ensures total == Total(tokens)
  {
    total := 0;
    for k := 0 to |tokens|
      invariant total == Total(tokens[..k])
    {
      assert tokens[..k + 1][..k] == tokens[..k];
      total := Wrap32(total + TokenCount(tokens[k]));
    }
    assert tokens[..|tokens|] == tokens;
  }

  /** A contiguous range of slots and its token: "N", or "N-M". */
  datatype Range = Range(lo: nat, hi: nat)

  function Token(r: Range): string {
    if r.lo == r.hi then Itoa(r.lo) else Itoa(r.lo) + ['-'] + Itoa(r.hi)
  }

  predicate Within(r: Range, k: int) { r.lo <= k <= r.hi }

  ghost function Denotes(r: Range): set<int> { set k | r.lo <= k <= r.hi && Within(r, k) }

  ghost function Union(ranges: seq<Range>): set<int> {
    if ranges == [] then {} else Union(ranges[..|ranges| - 1]) + Denotes(ranges[|ranges| - 1])
  }

  /** Slot ranges as one node owns them: within the table and disjoint from those before. */
  ghost predicate Owned(ranges: seq<Range>) {
    ranges == [] ||
    var r := ranges[|ranges| - 1];
    Owned(ranges[..|ranges| - 1]) && r.lo <= r.hi < SLOTS && Denotes(r) !! Union(ranges[..|ranges| - 1])
  }

  function Tokens(ranges: seq<Range>): seq<string> {
    seq(|ranges|, i requires 0 <= i < |ranges| => Token(ranges[i]))
  }

  lemma PairCount(lo: string, hi: string)
    requires lo != "" && '-' !in lo
    ensures TokenCount(lo + ['-'] + hi) == RangeCount(Atoi(lo), Atoi(hi))
  {
    FindAppend(lo, '-', hi);
    var t := lo + ['-'] + hi;
    assert t[..|lo|] == lo && t[|lo| + 1..] == hi;
  }

  lemma TokenCountIs(r: Range)
    requires r.lo <= r.hi < SLOTS
    ensures TokenCount(Token(r)) == r.hi - r.lo + 1
  {
    ItoaDigits(r.lo);
    DigitsLack(Itoa(r.lo), '-');
    AtoiItoa(r.lo);
    AtoiItoa(r.hi);
    if r.lo != r.hi { PairCount(Itoa(r.lo), Itoa(r.hi)); }
  }

  lemma {:induction false} DenotesSize(r: Range)
    requires r.lo <= r.hi + 1
    ensures |Denotes(r)| == r.hi - r.lo + 1
    decreases r.hi + 1 - r.lo
  {
    if r.lo > r.hi {
      assert Denotes(r) == {};
    } else {
      var rest := Range(r.lo + 1, r.hi);
      DenotesSize(rest);
      assert Within(r, r.lo) && forall k :: Within(r, k) <==> k == r.lo || Within(rest, k);
      assert Denotes(r) == {r.lo as int} + Denotes(rest);
    }
  }

  /** Owned ranges stay within the slot table. */
  lemma {:induction false} OwnedWithin(ranges: seq<Range>)
    requires Owned(ranges)
    ensures Union(ranges) <= Denotes(Range(0, SLOTS - 1)) && |Union(ranges)| <= SLOTS
  {
    var all := Range(0, SLOTS - 1);
    DenotesSize(all);
    if ranges != [] {
      OwnedWithin(ranges[..|ranges| - 1]);
      var r := ranges[|ranges| - 1];
      assert forall k :: Within(r, k) ==> Within(all, k);
    }
    SmallerSet(Union(ranges), Denotes(all));
  }

  /** slotsCount is the number of slots the tokens denote, with no overflow on the way. */
  lemma {:induction false} SlotsCountExact(ranges: seq<Range>)
    requires Owned(ranges)
    ensures Total(Tokens(ranges)) == |Union(ranges)|
  {
    if ranges != [] {
      var front, r := ranges[..|ranges| - 1], ranges[|ranges| - 1];
      SlotsCountExact(front);
      OwnedWithin(ranges);
      assert Tokens(ranges)[..|ranges| - 1] == Tokens(front);
      TokenCountIs(r);
      DenotesSize(r);
      assert |Union(ranges)| == |Union(front)| + |Denotes(r)|;
    }
  }
}
