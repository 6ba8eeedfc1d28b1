/**
 Quoting a value for valkey.conf, and the reader of double-quoted arguments it is
 written for: backslash escapes \\, \", \a, \b, \n, \r, \t and \xhh.
 */
module ConfigQuoting {
  import opened Common

  newtype byte = x: int | 0 <= x < 256

  const QUOTE: byte := 0x22

  const BACKSLASH: byte := 0x5c

  function HexDigit(d: byte): byte
    requires d < 16
  {
    if d < 10 then 0x30 + d else 0x61 + (d - 10)
  }

  /** The format \x%02x. */
  function Hex(c: byte): (h: seq<byte>)
    ensures |h| == 4
  {
    [BACKSLASH, 0x78, HexDigit(c / 16), HexDigit(c % 16)]
  }

  /** How the operator writes one byte. */
  function Escape(c: byte): seq<byte> {
    if c == BACKSLASH || c == QUOTE then [BACKSLASH, c]
    else if c == 0x07 then [BACKSLASH, 0x61]       // \a
    else if c == 0x08 then [BACKSLASH, 0x62]       // \b
    else if c == 0x0a then [BACKSLASH, 0x6e]       // \n
    else if c == 0x0d then [BACKSLASH, 0x72]       // \r
    else if c == 0x09 then [BACKSLASH, 0x74]       // \t
    else if c < 0x20 || c == 0x7f then Hex(c)
    else [c]
  }

  /** The value byte by byte, each as `escape` writes it. */
  function Body(escape: byte -> seq<byte>, value: seq<byte>): seq<byte> {
    if value == [] then [] else Body(escape, value[..|value| - 1]) + escape(value[|value| - 1])
  }

  function Quoted(value: seq<byte>): seq<byte> { [QUOTE] + Body(Escape, value) + [QUOTE] }

  /** valkeyConfigArg, writing into a builder byte by byte. */
  method ValkeyConfigArg(value: seq<byte>) returns (b: seq<byte>)
    ensures b == Quoted(value)
  {
    b := [QUOTE];
    for i := 0 to |value|
      invariant b == [QUOTE] + Body(Escape, value[..i])
    {
      assert value[..i + 1][..i] == value[..i];
      b := b + Escape(value[i]);
    }
    assert value[..|value|] == value;
    b := b + [QUOTE];
  }

  // ------------------------------------------------------------- the reader

  function HexValue(c: byte): Option<byte> {
    if 0x30 <= c <= 0x39 then Some(c - 0x30)
    else if 0x61 <= c <= 0x66 then Some(c - 0x61 + 10)
    else if 0x41 <= c <= 0x46 then Some(c - 0x41 + 10)
    else None
  }

  /** The byte a one-letter escape stands for. */
  function Named(c: byte): byte {
    if c == 0x6e then 0x0a else if c == 0x72 then 0x0d else if c == 0x74 then 0x09
    else if c == 0x62 then 0x08 else if c == 0x61 then 0x07 else c
  }

  function Prepend(front: seq<byte>, r: Option<(seq<byte>, nat)>): Option<(seq<byte>, nat)> {
    match r
    case None => None
    case Some((arg, end)) => Some((front + arg, end))
  }

  /** Inside double quotes, from position i: the argument, and the position after the closing quote. */
  function Inside(s: seq<byte>, i: nat): Option<(seq<byte>, nat)>
    requires i <= |s|
    decreases |s| - i
  {
    if i == |s| then None
    else if s[i] == QUOTE then Some(([], i + 1))
    else if i + 3 < |s| && s[i] == BACKSLASH && s[i + 1] == 0x78 && HexValue(s[i + 2]).Some?
          && HexValue(s[i + 3]).Some? then
      Prepend([HexValue(s[i + 2]).value * 16 + HexValue(s[i + 3]).value], Inside(s, i + 4))
    else if i + 1 < |s| && s[i] == BACKSLASH then Prepend([Named(s[i + 1])], Inside(s, i + 2))
    else Prepend([s[i]], Inside(s, i + 1))
  }

  /** A line that is one double-quoted argument and nothing else. */
  function Read(s: seq<byte>): Option<seq<byte>> {
    if s == [] || s[0] != QUOTE then None
    else match Inside(s, 1)
      case Some((arg, end)) => if end == |s| then Some(arg) else None
      case None => None
  }

  lemma HexRoundTrip(c: byte)
    ensures HexValue(HexDigit(c / 16)) == Some(c / 16) && HexValue(HexDigit(c % 16)) == Some(c % 16)
    ensures (c / 16) * 16 + c % 16 == c
  {
  }

  /** `part` stands at position i of s. */
  ghost predicate At(s: seq<byte>, i: nat, part: seq<byte>) {
    i + |part| <= |s| && forall k :: 0 <= k < |part| ==> s[i + k] == part[k]
  }

  /** The reader takes one escaped byte back, whatever follows. */
  lemma ReadsEscape(s: seq<byte>, i: nat, c: byte)
    requires At(s, i, Escape(c))
    ensures Inside(s, i) == Prepend([c], Inside(s, i + |Escape(c)|))
  {
    var e := Escape(c);
    assert s[i] == e[0] && (|e| >= 2 ==> s[i + 1] == e[1]);
    if |e| == 4 {
      assert s[i + 2] == e[2] && s[i + 3] == e[3];
      HexRoundTrip(c);
    }
  }

  lemma PrependTwice(a: seq<byte>, b: seq<byte>, r: Option<(seq<byte>, nat)>)
    ensures Prepend(a, Prepend(b, r)) == Prepend(a + b, r)
  {
    if r.Some? { assert a + (b + r.value.0) == a + b + r.value.0; }
  }

  /** Wherever it stands in s, a byte as `escape` writes it is read back. */
  ghost predicate TakesBack(s: seq<byte>, escape: byte -> seq<byte>) {
    forall j: nat, c: byte {:trigger At(s, j, escape(c))} ::
      At(s, j, escape(c)) ==> Inside(s, j) == Prepend([c], Inside(s, j + |escape(c)|))
  }

  /** The escaped bytes of `value` stand one after the other from i on. */
  ghost predicate Stand(s: seq<byte>, escape: byte -> seq<byte>, i: nat, value: seq<byte>) {
    value == [] ||
    (var front, c := value[..|value| - 1], value[|value| - 1];
     Stand(s, escape, i, front) && At(s, i + |Body(escape, front)|, escape(c)))
  }

  lemma AtSplit(s: seq<byte>, i: nat, a: seq<byte>, b: seq<byte>)
    requires At(s, i, a + b)
    ensures At(s, i, a) && At(s, i + |a|, b)
  {
    forall k | 0 <= k < |a| ensures s[i + k] == a[k] { assert (a + b)[k] == a[k]; }
    forall k | 0 <= k < |b| ensures s[i + |a| + k] == b[k] { assert (a + b)[|a| + k] == b[k]; }
  }

  lemma {:induction false} BodyStands(s: seq<byte>, escape: byte -> seq<byte>, i: nat, value: seq<byte>)
    requires At(s, i, Body(escape, value))
    ensures Stand(s, escape, i, value)
  {
    if value != [] {
      AtSplit(s, i, Body(escape, value[..|value| - 1]), escape(value[|value| - 1]));
      BodyStands(s, escape, i, value[..|value| - 1]);
    }
  }

  lemma {:induction false} ReadsBody(s: seq<byte>, escape: byte -> seq<byte>, i: nat, value: seq<byte>)
    requires TakesBack(s, escape) && Stand(s, escape, i, value) && i + |Body(escape, value)| <= |s|
    ensures Inside(s, i) == Prepend(value, Inside(s, i + |Body(escape, value)|))
  {
    if value == [] {
      var r := Inside(s, i);
      assert r.Some? ==> [] + r.value.0 == r.value.0;
    } else {
      var front, c := value[..|value| - 1], value[|value| - 1];
      ReadsBody(s, escape, i, front);
      PrependTwice(front, [c], Inside(s, i + |Body(escape, value)|));
      assert front + [c] == value;
    }
  }

  lemma EscapesTakenBack(s: seq<byte>)
    ensures TakesBack(s, Escape)
  {
    forall j: nat, c: byte | At(s, j, Escape(c))
      ensures Inside(s, j) == Prepend([c], Inside(s, j + |Escape(c)|))
    {
      ReadsEscape(s, j, c);
    }
  }

  lemma BodyBetweenQuotes(body: seq<byte>)
    ensures var s := [QUOTE] + body + [QUOTE]; At(s, 1, body) && s[0] == QUOTE && s[1 + |body|] == QUOTE
  {
  }

  /** The closing quote ends the argument. */
  lemma ClosingQuote(s: seq<byte>, j: nat, value: seq<byte>)
    requires j < |s| && s[j] == QUOTE
    ensures Prepend(value, Inside(s, j)) == Some((value, j + 1))
  {
    assert value + [] == value;
  }

  /** What stands from i up to a closing quote at j is the argument. */
  lemma ReadsUpTo(s: seq<byte>, escape: byte -> seq<byte>, i: nat, j: nat, value: seq<byte>)
    requires TakesBack(s, escape) && Stand(s, escape, i, value)
    requires j == i + |Body(escape, value)| < |s| && s[j] == QUOTE
    ensures Inside(s, i) == Some((value, j + 1))
  {
    ReadsBody(s, escape, i, value);
    ClosingQuote(s, j, value);
  }

  lemma StandsQuoted(escape: byte -> seq<byte>, value: seq<byte>)
    ensures Stand([QUOTE] + Body(escape, value) + [QUOTE], escape, 1, value)
  {
    BodyBetweenQuotes(Body(escape, value));
    BodyStands([QUOTE] + Body(escape, value) + [QUOTE], escape, 1, value);
  }

  /** A body between quotes is read whole, for every way of writing bytes that the reader takes back. */
  lemma ReadsQuoted(s: seq<byte>, escape: byte -> seq<byte>, value: seq<byte>)
    requires TakesBack(s, escape) && s == [QUOTE] + Body(escape, value) + [QUOTE]
    ensures Read(s) == Some(value)
  {
    var j := 1 + |Body(escape, value)|;
    assert |s| == j + 1 && s[0] == QUOTE && s[j] == QUOTE;
    StandsQuoted(escape, value);
    ReadsUpTo(s, escape, 1, j, value);
  }

  /** For every byte string, reading what was written gives it back. */
  lemma RoundTrip(value: seq<byte>)
    ensures Read(Quoted(value)) == Some(value)
  {
    EscapesTakenBack(Quoted(value));
    ReadsQuoted(Quoted(value), Escape, value);
  }

  /** So no two values are written alike. */
  lemma Injective(a: seq<byte>, b: seq<byte>)
    requires Quoted(a) == Quoted(b)
    ensures a == b
  {
    RoundTrip(a);
    RoundTrip(b);
  }

  lemma EscapePrints(c: byte, i: nat)
    requires i < |Escape(c)|
    ensures 0x20 <= Escape(c)[i] && Escape(c)[i] != 0x7f
  {
  }

  /** The written line has no raw control byte: it stays one line and one argument. */
  lemma {:induction false} NoControlByte(value: seq<byte>, i: nat)
    requires i < |Body(Escape, value)|
    ensures 0x20 <= Body(Escape, value)[i] && Body(Escape, value)[i] != 0x7f
  {
    var front := Body(Escape, value[..|value| - 1]);
    if i < |front| {
      NoControlByte(value[..|value| - 1], i);
    } else {
      EscapePrints(value[|value| - 1], i - |front|);
    }
  }
}
