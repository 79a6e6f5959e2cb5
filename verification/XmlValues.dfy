/**
  What the text of an attribute value stands for: plain characters, line breaks,
  the five entities and character references, each by itself.
 */
module XmlValues {
  import opened Names
  import opened XmlText
  import opened XmlStrings

  datatype Entity = Quot | Amp | Apos | Lt | Gt

  datatype Piece = Plain(c: char) | Break(ends: string) | Named(entity: Entity) | Numbered(ds: string, hex: bool)

  /** How it is written. */
  function Written(p: Piece): string {
    match p
    case Plain(c) => [c]
    case Break(ends) => ends
    case Named(Quot) => "&quot;"
    case Named(Amp) => "&amp;"
    case Named(Apos) => "&apos;"
    case Named(Lt) => "&lt;"
    case Named(Gt) => "&gt;"
    case Numbered(ds, hex) => (if hex then "&#x" else "&#") + ds + ";"
  }

  /** The number of bytes of a code, by section 3 of RFC 3629. */
  function Length(n: nat): nat { if n < 0x80 then 1 else if n < 0x800 then 2 else if n < 0x10000 then 3 else 4 }

  ghost predicate IsUtf8(s: string, n: nat) {
    && |s| == Length(n) && FromUtf8(s) == n
    && s[0] as nat / (if n < 0x80 then 0x80 else if n < 0x800 then 0x20 else if n < 0x10000 then 0x10 else 0x08)
       == (if n < 0x80 then 0 else if n < 0x800 then 6 else if n < 0x10000 then 14 else 30)
    && forall k :: 1 <= k < |s| ==> 0x80 <= s[k] as nat < 0xC0
  }

  /** What it stands for: line breaks are one line feed, references the bytes of their code. */
  ghost predicate StandsFor(p: Piece, out: string) {
    match p
    case Plain(c) => out == [c]
    case Break(_) => out == "\n"
    case Named(Quot) => out == "\""
    case Named(Amp) => out == "&"
    case Named(Apos) => out == "'"
    case Named(Lt) => out == "<"
    case Named(Gt) => out == ">"
    case Numbered(ds, hex) => Numeral(ds, hex) && IsUtf8(out, Positional(ds, if hex then 16 else 10))
  }

  predicate Numeral(ds: string, hex: bool) {
    ds != [] && forall k :: 0 <= k < |ds| ==> DigitOf(ds[k], if hex then 16 else 10).Some?
  }

  /** The digits there are, in both cases, and what they are worth. */
  lemma DigitsAre(k: nat, c: char)
    ensures k < 16 ==>
        DigitOf("0123456789abcdef"[k], 16) == Some(k) && DigitOf("0123456789ABCDEF"[k], 16) == Some(k)
    ensures k < 10 ==> DigitOf("0123456789"[k], 10) == Some(k)
    ensures DigitOf(c, 10).Some? ==> c in "0123456789"
    ensures DigitOf(c, 16).Some? ==> c in "0123456789abcdefABCDEF"
    ensures Positional("65", 10) == 65 && Positional("1f", 16) == 0x1F
  {
    assert "65"[..1] == "6" && "6"[..0] == "" && "1f"[..1] == "1" && "1"[..0] == "";
    assert Positional("6", 10) == 6 && Positional("1", 16) == 1;
    if '0' <= c <= '9' { assert c == "0123456789"[c as int - '0' as int]; }
    if 'a' <= c <= 'f' { assert c == "0123456789abcdefABCDEF"[c as int - 'a' as int + 10]; }
    if 'A' <= c <= 'F' { assert c == "0123456789abcdefABCDEF"[c as int - 'A' as int + 16]; }
    if '0' <= c <= '9' { assert c == "0123456789abcdefABCDEF"[c as int - '0' as int]; }
  }

  predicate Proper(p: Piece) {
    match p
    case Plain(c) => c != '&' && c != '\r' && c != '\n'
    case Break(ends) => ends == "\n" || ends == "\r" || ends == "\r\n" || ends == "\n\r"
    case Named(_) => true
    case Numbered(ds, hex) => Numeral(ds, hex) && Positional(ds, if hex then 16 else 10) < 0x200000
  }

  /** A break takes the second character of a pair along. */
  predicate Stands(p: Piece, rest: string) {
    Proper(p) && (p.Break? && |p.ends| == 1 && rest != [] ==> rest[0] != if p.ends == "\n" then '\r' else '\n')
  }

  function Text(ps: seq<Piece>): string { if ps == [] then "" else Written(ps[0]) + Text(ps[1..]) }

  predicate AllStand(ps: seq<Piece>) {
    ps == [] || (Stands(ps[0], Text(ps[1..])) && AllStand(ps[1..]))
  }

  function Concat(outs: seq<string>): string { if outs == [] then "" else outs[0] + Concat(outs[1..]) }

  lemma Utf8Is(n: nat)
    requires n < 0x200000
    ensures IsUtf8(Utf8(n), n)
  {
    Utf8Back(n);
    FirstBits(n);
  }

  lemma FirstBits(n: nat)
    ensures 0x80 <= n < 0x800 ==> (0xC0 + n / 0x40) / 0x20 == 6
    ensures 0x800 <= n < 0x10000 ==> (0xE0 + n / 0x1000) / 0x10 == 14
    ensures 0x10000 <= n < 0x200000 ==> (0xF0 + n / 0x40000) / 0x08 == 30
  {
  }

  /** A character reference is taken whole, and the bytes of its code are written for it. */
  lemma ReferenceNext(ds: string, hex: bool, rest: string)
    requires Proper(Numbered(ds, hex))
    ensures var t := Written(Numbered(ds, hex)) + rest;
            var k := Next(t);
            && k.Some? && k.value.emit.Some? && t[k.value.len..] == rest
            && StandsFor(Numbered(ds, hex), k.value.emit.value)
  {
    var n := Positional(ds, if hex then 16 else 10);
    CharRefValue(ds, hex, rest);
    var t := (if hex then "&#x" else "&#") + ds + ";" + rest;
    assert Written(Numbered(ds, hex)) + rest == t;
    assert t[|t| - |rest|..] == rest;
    hide CharRef, Utf8, IsUtf8, Positional;
    assert Next(t) == Some(Token(|t| - |rest|, Some(Utf8(n))));
    Utf8Is(n);
  }

  lemma NamedNext(e: Entity, rest: string)
    ensures var t := Written(Named(e)) + rest;
            var k := Next(t);
            && k.Some? && k.value.emit.Some? && t[k.value.len..] == rest && StandsFor(Named(e), k.value.emit.value)
  {
    var c := match e case Quot => '"' case Amp => '&' case Apos => '\'' case Lt => '<' case Gt => '>';
    EntityNext(c, rest);
    assert Written(Named(e)) == "&" + PatternOf(c) + ";";
  }

  /** Each piece is one token. */
  lemma PieceNext(p: Piece, rest: string)
    requires Stands(p, rest)
    ensures var t := Written(p) + rest;
            var k := Next(t);
            t != [] && k.Some? && k.value.emit.Some? && t[k.value.len..] == rest && StandsFor(p, k.value.emit.value)
  {
    match p
    case Plain(c) => assert ([c] + rest)[1..] == rest;
    case Break(ends) =>
      var t := ends + rest;
      assert t[|ends|..] == rest;
      if |ends| == 1 && rest != [] { assert t[1] == rest[0]; }
    case Named(e) => NamedNext(e, rest);
    case Numbered(ds, hex) => ReferenceNext(ds, hex, rest);
  }

  /** A value is what its pieces stand for, one after the other. */
  lemma {:induction false} ValueDecoded(f: Cutter, ps: seq<Piece>) returns (outs: seq<string>)
    requires IsNext(f) && AllStand(ps)
    ensures |outs| == |ps| && forall k :: 0 <= k < |ps| ==> StandsFor(ps[k], outs[k])
    ensures Decodable(f, Text(ps)) && Decode(f, Text(ps)) == Concat(outs)
    ensures forall all: string, n: nat :: n + |Text(ps)| <= |all| ==> NoneStale(f, all, Text(ps), n)
  {
    if ps == [] {
      outs := [];
    } else {
      var t, rest := Text(ps), Text(ps[1..]);
      var more := ValueDecoded(f, ps[1..]);
      PieceNext(ps[0], rest);
      hide StandsFor, Written, Stands;
      assert f(t) == Next(t);
      outs := [f(t).value.emit.value] + more;
    }
  }

  /** GetStr of such a value leaves what it stands for in the buffer. */
  method ReadValue(mem: array<char>, start: nat, end: nat, ghost ps: seq<Piece>) returns (stop: nat,
                   ghost outs: seq<string>)
    requires start <= end < mem.Length && AllStand(ps) && mem[..][start..end] == Text(ps)
    modifies mem
    ensures |outs| == |ps| && forall k :: 0 <= k < |ps| ==> StandsFor(ps[k], outs[k])
    ensures start <= stop <= end && mem[stop] == NUL && mem[..][start..stop] == Concat(outs)
  {
    ghost var f: Cutter := Next;
    ghost var t := Text(ps);
    NextBounded();
    outs := ValueDecoded(f, ps);
    InPlaceExactIff(f, t, t, []);
    assert [] + Decode(f, t) == Decode(f, t);
    var r := GetStr(mem, start, end, f);
    stop := r.value;
  }

  /** The characters an attribute value, or a text, is printed with. */
  lemma EscapedAs(c: char)
    ensures EscapeChar('"', false) == "&quot;" && EscapeChar('"', true) == "\""
    ensures EscapeChar('\'', false) == "&apos;" && EscapeChar('\'', true) == "'"
    ensures forall r: bool ::
        EscapeChar('&', r) == "&amp;" && EscapeChar('<', r) == "&lt;" && EscapeChar('>', r) == "&gt;"
    ensures c !in "\"'&<>" ==> forall r: bool :: EscapeChar(c, r) == [c]
  {
  }
}
