/**
  Text of the XML engine: escaping on output, in-place decoding on input, and
  character references. A char stands for one byte.
 */
module XmlText {
  import opened Names

  const CR: char := '\r'
  const LF: char := '\n'
  const NUL: char := '\0'

  // The entity table, in its order.

  const ENTITIES: nat := 5

  function Pattern(i: nat): string
    requires i < ENTITIES
  {
    if i == 0 then "quot" else if i == 1 then "amp" else if i == 2 then "apos" else if i == 3 then "lt" else "gt"
  }

  function Value(i: nat): char
    requires i < ENTITIES
  {
    if i == 0 then '"' else if i == 1 then '&' else if i == 2 then '\'' else if i == 3 then '<' else '>'
  }

  // ----- character references -----

  function DigitOf(c: char, base: nat): Option<nat> {
    if '0' <= c <= '9' then Some(c as nat - '0' as nat)
    else if base == 16 && 'a' <= c <= 'f' then Some(c as nat - 'a' as nat + 10)
    else if base == 16 && 'A' <= c <= 'F' then Some(c as nat - 'A' as nat + 10)
    else None
  }

  /** 32-bit and 64-bit unsigned arithmetic. */
  function W32(n: nat): nat { n % 0x1_0000_0000 }
  function W64(n: nat): nat { n % 0x1_0000_0000_0000_0000 }

  /**
    The scan of GetCharacterRef: from position i to the left until the mark, which
    is at stop if not before; None at a character that is no digit.
   */
  function Scan(t: string, i: nat, stop: nat, mark: char, base: nat, mult: nat, ucs: nat): Option<nat>
    requires stop <= i < |t| && t[stop] == mark
    decreases i
  {
    if t[i] == mark then Some(ucs)
    else
      var d := DigitOf(t[i], base);
      if d.None? then None
      else Scan(t, i - 1, stop, mark, base, W32(mult * base), W64(ucs + W32(mult * d.value)))
  }

  /** strchr for ';'; the length when there is none. */
  function FindSemi(t: string, i: nat): (k: nat)
    requires i <= |t|
    ensures i <= k <= |t| && (k < |t| ==> t[k] == ';') && forall j :: i <= j < k ==> t[j] != ';'
    decreases |t| - i
  {
    if i == |t| || t[i] == ';' then i else FindSemi(t, i + 1)
  }

  /** GetCharacterRef of a text that starts with "&#" and goes on: the code and the length of the reference. */
  function CharRef(t: string): (r: Option<(nat, nat)>)
    requires 2 < |t| && t[0] == '&' && t[1] == '#'
    ensures r.Some? ==> 3 <= r.value.1 <= |t|
    ensures r.Some? && r.value.1 == 3 ==> r.value.0 == 0
  {
    var hex := t[2] == 'x';
    if hex && |t| == 3 then None
    else
      var semi := FindSemi(t, if hex then 3 else 2);
      if semi == |t| then None
      else
        var mark := if hex then 'x' else '#';
        var ucs := Scan(t, semi - 1, if hex then 2 else 1, mark, if hex then 16 else 10, 1, 0);
        if ucs.None? then None else Some((ucs.value, semi + 1))
  }

  /** The value of a digit string, most significant digit first. */
  function Positional(ds: string, base: nat): nat
    requires forall k :: 0 <= k < |ds| ==> DigitOf(ds[k], base).Some?
  {
    if ds == [] then 0 else Positional(ds[..|ds| - 1], base) * base + DigitOf(ds[|ds| - 1], base).value
  }

  /** With a value v still to come at weight mult, the scan ends at total. */
  ghost predicate Heading(ucs: nat, mult: nat, v: nat, total: nat) {
    total == ucs + mult * v && total < 0x200000 && (mult < 0x200000 || v == 0)
  }

  /** Scanning digits adds up their positional value, as long as that stays small. */
  lemma {:induction false} ScanDigits(t: string, i: nat, stop: nat, mark: char, base: nat, mult: nat, ucs: nat,
                                      total: nat)
    requires base == 10 || base == 16
    requires stop <= i < |t| && t[stop] == mark && DigitOf(mark, base).None?
    requires forall k :: stop < k <= i ==> DigitOf(t[k], base).Some?
    requires Heading(ucs, mult, Positional(t[stop + 1..i + 1], base), total)
    ensures Scan(t, i, stop, mark, base, mult, ucs) == Some(total)
    decreases i
  {
    hide Heading, W32, W64, Positional;
    if i == stop {
      assert t[stop + 1..i + 1] == [];
      NoDigits(ucs, mult, base, total);
    } else {
      var high, d := Positional(t[stop + 1..i], base), DigitOf(t[i], base).value;
      LastDigit(t, stop + 1, i, base);
      LowDigit(mult, high, base, d, ucs, total);
      ScanDigits(t, i - 1, stop, mark, base, W32(mult * base), W64(ucs + W32(mult * d)), total);
    }
  }

  lemma NoDigits(ucs: nat, mult: nat, base: nat, total: nat)
    requires Heading(ucs, mult, Positional([], base), total)
    ensures ucs == total
  {
  }

  lemma LastDigit(t: string, a: nat, i: nat, base: nat)
    requires a <= i < |t| && forall k :: a <= k <= i ==> DigitOf(t[k], base).Some?
    ensures Positional(t[a..i + 1], base) == Positional(t[a..i], base) * base + DigitOf(t[i], base).value
    ensures DigitOf(t[i], base).value < if base == 16 then 16 else 10
  {
    var ds := t[a..i + 1];
    assert ds[..|ds| - 1] == t[a..i] && ds[|ds| - 1] == t[i];
  }

  lemma LowDigit(mult: nat, high: nat, base: nat, d: nat, ucs: nat, total: nat)
    requires base == 10 || base == 16
    requires d < base && Heading(ucs, mult, high * base + d, total)
    ensures Heading(W64(ucs + W32(mult * d)), W32(mult * base), high, total)
  {
    Expand(mult, high, base, d);
    SmallSum(ucs, mult * d, (mult * base) * high);
    if high != 0 {
      Bigger(mult * base, high);
      SmallWord(mult * base);
    }
  }

  lemma Expand(mult: nat, high: nat, base: nat, d: nat)
    ensures mult * (high * base + d) == (mult * base) * high + mult * d
    ensures 0 <= (mult * base) * high && 0 <= mult * d
  {
    assert mult * (high * base) == (mult * base) * high;
  }

  lemma SmallSum(u: nat, b: nat, a: nat)
    requires u + a + b < 0x200000
    ensures W64(u + W32(b)) == u + b
  {
  }

  lemma SmallWord(a: nat)
    requires a < 0x200000
    ensures W32(a) == a
  {
  }

  lemma Bigger(a: nat, b: nat)
    requires 0 < b
    ensures a <= a * b
  {
  }

  /**
    A decimal or hexadecimal reference with a value below 0x200000, however many
    zeros lead it, is read as its positional value.
   */
  lemma CharRefValue(ds: string, hex: bool, rest: string)
    requires var base := if hex then 16 else 10;
             && (forall k :: 0 <= k < |ds| ==> DigitOf(ds[k], base).Some?) && Positional(ds, base) < 0x200000
    requires ds != []
    ensures var t := (if hex then "&#x" else "&#") + ds + ";" + rest;
            && 2 < |t| && t[0] == '&' && t[1] == '#'
            && CharRef(t) == Some((Positional(ds, if hex then 16 else 10), |t| - |rest|))
  {
    var pre := if hex then "&#x" else "&#";
    var base := if hex then 16 else 10;
    var mark := if hex then 'x' else '#';
    var t := pre + ds + ";" + rest;
    var semi := |pre| + |ds|;
    assert t[semi] == ';' && t[|pre|] == ds[0];
    assert forall k :: 0 <= k < |ds| ==> t[|pre| + k] == ds[k];
    SemiAt(t, |pre|, semi);
    assert t[|pre|..semi] == ds;
    ScanDigits(t, semi - 1, |pre| - 1, mark, base, 1, 0, Positional(ds, base));
  }

  lemma {:induction false} SemiAt(t: string, i: nat, semi: nat)
    requires i <= semi < |t| && t[semi] == ';' && forall j :: i <= j < semi ==> t[j] != ';'
    ensures FindSemi(t, i) == semi
    decreases semi - i
  {
    if i != semi { SemiAt(t, i + 1, semi); }
  }

  /** GetCharacterRef. */
  method GetCharacterRef(t: string) returns (r: Option<(nat, nat)>)
    requires 2 < |t| && t[0] == '&' && t[1] == '#'
    ensures r == CharRef(t)
  {
    var hex := t[2] == 'x';
    if hex && |t| == 3 { return None; }
    var semi := StrChr(t, if hex then 3 else 2);
    if semi == |t| { return None; }
    var ucs := ScanBack(t, semi - 1, if hex then 2 else 1, if hex then 'x' else '#', if hex then 16 else 10);
    r := if ucs.None? then None else Some((ucs.value, semi + 1));
  }

  method StrChr(t: string, from: nat) returns (q: nat)
    requires from <= |t|
    ensures q == FindSemi(t, from)
  {
    q := from;
    while q < |t| && t[q] != ';'
      invariant from <= q <= |t| && FindSemi(t, from) == FindSemi(t, q)
    {
      q := q + 1;
    }
  }

  /** The accumulation loop, from right to left. */
  method ScanBack(t: string, from: nat, ghost stop: nat, mark: char, base: nat) returns (r: Option<nat>)
    requires stop <= from < |t| && t[stop] == mark
    ensures r == Scan(t, from, stop, mark, base, 1, 0)
  {
    var ucs: nat, mult: nat := 0, 1;
    var q := from;
    while t[q] != mark
      invariant stop <= q < |t|
      invariant Scan(t, from, stop, mark, base, 1, 0) == Scan(t, q, stop, mark, base, mult, ucs)
      decreases q
    {
      var d := DigitOf(t[q], base);
      if d.None? { return None; }
      ucs, mult := W64(ucs + W32(mult * d.value)), W32(mult * base);
      q := q - 1;
    }
    return Some(ucs);
  }

  // ----- UTF-8 -----

  function Ch(n: nat): char
    requires n < 256
  {
    n as char
  }

  function Byte(m: nat): (b: bv8)
    requires m < 0x100
    ensures b as nat == m
  {
    if m == 0 then 0 else Byte(m - 1) + 1
  }

  /** The low byte of a code; the cast to char keeps no more. */
  function LowByte(n: nat): (b: bv8)
    ensures b as nat == n % 0x100
  {
    Byte(n % 0x100)
  }

  /** Setting bit 7 and clearing bit 6 leaves 0x80 and the low six bits. */
  lemma MaskIs(b: bv8)
    ensures ((b | 0x80) & 0xBF) as nat == 0x80 + b as nat % 0x40
  {
    var h, low := b >> 6, b & 0x3F;
    assert b == (h << 6) | low;
    assert b as nat == h as nat * 0x40 + low as nat;
    assert (b | 0x80) & 0xBF == low | 0x80;
    assert (low | 0x80) as nat == 0x80 + low as nat;
  }

  lemma LowSix(x: nat, n: nat)
    requires x == n % 0x100
    ensures x % 0x40 == n % 0x40
  {
  }

  lemma NextByteIs(left: nat)
    ensures ((LowByte(left) | 0x80) & 0xBF) as nat == 0x80 + left % 0x40
  {
    hide LowByte;
    MaskIs(LowByte(left));
    LowSix(LowByte(left) as nat, left);
  }

  /** The byte the switch writes for all places but the first. */
  function NextByte(left: nat): (c: char)
    ensures c == Ch(0x80 + left % 0x40)
  {
    NextByteIs(left);
    hide LowByte;
    Ch(((LowByte(left) | 0x80) & 0xBF) as nat)
  }

  lemma MarkIs(b: bv8)
    ensures b as nat < 0x20 ==> (b | 0xC0) as nat == 0xC0 + b as nat
    ensures b as nat < 0x10 ==> (b | 0xE0) as nat == 0xE0 + b as nat
    ensures b as nat < 0x08 ==> (b | 0xF0) as nat == 0xF0 + b as nat
    ensures b | 0 == b
  {
    assert b as nat < 0x20 ==> b < 0x20;
    assert b as nat < 0x10 ==> b < 0x10;
    assert b as nat < 0x08 ==> b < 0x08;
  }

  function MarkOf(length: nat): bv8 {
    if length == 2 then 0xC0 else if length == 3 then 0xE0 else if length == 4 then 0xF0 else 0
  }

  lemma FirstByteIs(left: nat, length: nat)
    requires (length == 1 && left < 0x80) || (length == 2 && left < 0x20) || (length == 3 && left < 0x10)
        || (length == 4 && left < 0x08)
    ensures (LowByte(left) | MarkOf(length)) as nat
         == left + if length == 1 then 0 else if length == 2 then 0xC0 else if length == 3 then 0xE0 else 0xF0
  {
    assert left % 0x100 == left;
    hide LowByte;
    MarkIs(LowByte(left));
  }

  /** The first byte: what is left, below the mark for the length. */
  function FirstByte(left: nat, length: nat): (c: char)
    requires (length == 1 && left < 0x80) || (length == 2 && left < 0x20) || (length == 3 && left < 0x10)
        || (length == 4 && left < 0x08)
    ensures c == Ch(left + if length == 1 then 0 else if length == 2 then 0xC0 else if length == 3 then 0xE0 else 0xF0)
  {
    FirstByteIs(left, length);
    hide LowByte, MarkOf;
    Ch((LowByte(left) | MarkOf(length)) as nat)
  }

  /** ConvertUTF32ToUTF8: the bytes; none for what it will not convert. */
  function Utf8(n: nat): (s: string)
    ensures |s| <= 4 && (n < 0x80 ==> |s| == 1)
  {
    if n < 0x80 then [Ch(n)]
    else if n < 0x800 then [Ch(0xC0 + n / 0x40), Ch(0x80 + n % 0x40)]
    else if n < 0x10000 then [Ch(0xE0 + n / 0x1000), Ch(0x80 + n / 0x40 % 0x40), Ch(0x80 + n % 0x40)]
    else if n < 0x200000 then
      [Ch(0xF0 + n / 0x40000), Ch(0x80 + n / 0x1000 % 0x40), Ch(0x80 + n / 0x40 % 0x40), Ch(0x80 + n % 0x40)]
    else []
  }

  /** The six bits of byte k. */
  function Low(s: string, k: nat): nat {
    if k < |s| && 0x80 <= s[k] as nat then (s[k] as nat - 0x80) % 0x40 else 0
  }

  /** The code a byte sequence of section 3 of RFC 3629 stands for, by its first byte. */
  function FromUtf8(s: string): nat
    requires s != []
  {
    var a := s[0] as nat;
    if a < 0x80 then a
    else if a < 0xE0 then a % 0x20 * 0x40 + Low(s, 1)
    else if a < 0xF0 then a % 0x10 * 0x1000 + Low(s, 1) * 0x40 + Low(s, 2)
    else a % 0x08 * 0x40000 + Low(s, 1) * 0x1000 + Low(s, 2) * 0x40 + Low(s, 3)
  }

  lemma LowIs(s: string, k: nat, x: nat)
    requires k < |s| && x < 0x40 && s[k] as nat == 0x80 + x
    ensures Low(s, k) == x
  {
  }

  lemma TwoBytes(n: nat)
    requires 0x80 <= n < 0x800
    ensures FromUtf8(Utf8(n)) == n
  {
    LowIs(Utf8(n), 1, n % 0x40);
  }

  lemma ThreeBytes(n: nat)
    requires 0x800 <= n < 0x10000
    ensures FromUtf8(Utf8(n)) == n
  {
    Base64(n);
    LowIs(Utf8(n), 1, n / 0x40 % 0x40);
    LowIs(Utf8(n), 2, n % 0x40);
  }

  lemma FourBytes(n: nat)
    requires 0x10000 <= n < 0x200000
    ensures FromUtf8(Utf8(n)) == n
  {
    Base64(n);
    LowIs(Utf8(n), 1, n / 0x1000 % 0x40);
    LowIs(Utf8(n), 2, n / 0x40 % 0x40);
    LowIs(Utf8(n), 3, n % 0x40);
  }

  /** Every code below 0x200000 is written so that it can be read back. */
  lemma Utf8Back(n: nat)
    requires n < 0x200000
    ensures Utf8(n) != [] && FromUtf8(Utf8(n)) == n
  {
    if n < 0x80 {
    } else if n < 0x800 {
      TwoBytes(n);
    } else if n < 0x10000 {
      ThreeBytes(n);
    } else {
      FourBytes(n);
    }
  }

  lemma Base64(n: nat)
    ensures n == n / 0x40 * 0x40 + n % 0x40
    ensures n / 0x40 == n / 0x1000 * 0x40 + n / 0x40 % 0x40
    ensures n / 0x1000 == n / 0x40000 * 0x40 + n / 0x1000 % 0x40
  {
  }

  /** The conversion, last byte first as the code's fall-through cases do. */
  method ConvertUTF32ToUTF8(input: nat) returns (output: string)
    ensures output == Utf8(input)
  {
    var length := if input < 0x80 then 1 else if input < 0x800 then 2 else if input < 0x10000 then 3
                  else if input < 0x200000 then 4 else 0;
    output := [];
    if length == 0 { return; }
    var left := input;
    if length == 4 {
      output := [NextByte(left)] + output;
      left := left / 0x40;
    }
    if length >= 3 {
      output := [NextByte(left)] + output;
      left := left / 0x40;
    }
    if length >= 2 {
      output := [NextByte(left)] + output;
      left := left / 0x40;
    }
    Base64(input);
    output := [FirstByte(left, length)] + output;
  }

  // ----- tokens -----

  /** What the decoder takes at once: how many characters, and what it writes; None for an '&' it does not know. */
  datatype Token = Token(len: nat, emit: Option<string>)

  /** The text after the '&' is the pattern and a ';'. */
  predicate Matches(t: string, pattern: string) {
    |pattern| + 2 <= |t| && t[1 + |pattern|] == ';' && forall k :: 0 <= k < |pattern| ==> t[1 + k] == pattern[k]
  }

  function EntityToken(t: string, i: nat): (k: Token)
    requires i <= ENTITIES && t != []
    ensures 1 <= k.len <= |t| && (k.emit.Some? ==> |k.emit.value| <= k.len)
    decreases ENTITIES - i
  {
    if i == ENTITIES then Token(1, None)
    else if Matches(t, Pattern(i)) then Token(|Pattern(i)| + 2, Some([Value(i)]))
    else EntityToken(t, i + 1)
  }

  /** None where GetCharacterRef returns no pointer, and at the end. */
  function Next(t: string): (k: Option<Token>)
    ensures k.Some? ==> t != [] && 1 <= k.value.len <= |t| && (k.value.emit.Some? ==>
        |k.value.emit.value| <= k.value.len)
  {
    if t == [] then None
    else if t[0] == CR then Some(Token(if 1 < |t| && t[1] == LF then 2 else 1, Some([LF])))
    else if t[0] == LF then Some(Token(if 1 < |t| && t[1] == CR then 2 else 1, Some([LF])))
    else if t[0] != '&' then Some(Token(1, Some([t[0]])))
    else if |t| == 1 || t[1] != '#' then Some(EntityToken(t, 0))
    else if |t| == 2 then Some(Token(1, Some([])))
    else
      var r := CharRef(t);
      if r.None? then None else Some(Token(r.value.1, Some(Utf8(r.value.0))))
  }

  // ----- decoding, for any way of cutting a text into tokens -----

  type Cutter = string -> Option<Token>

  /** A token is never longer than the text and never writes more than it reads. */
  ghost predicate Bounded(f: Cutter) {
    forall t: string {:trigger f(t)} :: f(t).Some? ==>
      t != [] && 1 <= f(t).value.len <= |t| && (f(t).value.emit.Some? ==> |f(t).value.emit.value| <= f(t).value.len)
  }

  lemma NextBounded()
    ensures Bounded(Next)
  {
  }

  /** Every character reference is complete and of digits. */
  ghost predicate Decodable(f: Cutter, t: string)
    requires Bounded(f)
    decreases |t|
  {
    t == [] || (f(t).Some? && Decodable(f, t[f(t).value.len..]))
  }

  /** What one token means: an unknown '&' is itself. */
  ghost function Means(f: Cutter, t: string): string
    requires f(t).Some?
  {
    if f(t).value.emit.Some? then f(t).value.emit.value else "&"
  }

  /** What the decoder writes for it; c is at the write pointer. */
  ghost function Writes(f: Cutter, t: string, c: char): (w: string)
    requires f(t).Some?
    ensures |w| == |Means(f, t)| && (w != Means(f, t) ==> |w| == 1)
    ensures w == Means(f, t) <==> f(t).value.emit.Some? || c == '&'
  {
    if f(t).value.emit.Some? then f(t).value.emit.value else [c]
  }

  ghost function Decode(f: Cutter, t: string): string
    requires Bounded(f) && Decodable(f, t)
    decreases |t|
  {
    if t == [] then [] else Means(f, t) + Decode(f, t[f(t).value.len..])
  }

  /** What the decoder leaves in the buffer: an unknown '&' keeps whatever is at the write pointer. */
  ghost function InPlace(f: Cutter, s: string, t: string, out: string): (r: string)
    requires Bounded(f) && Decodable(f, t) && |out| + |t| <= |s|
    ensures |r| <= |out| + |t|
    decreases |t|
  {
    if t == [] then out else InPlace(f, s, t[f(t).value.len..], out + Writes(f, t, s[|out|]))
  }

  /** Every unknown '&' meets an '&' at the write pointer. */
  ghost predicate NoneStale(f: Cutter, s: string, t: string, n: nat)
    requires Bounded(f) && Decodable(f, t) && n + |t| <= |s|
    decreases |t|
  {
    t == [] ||
    ((f(t).value.emit.Some? || s[n] == '&') && NoneStale(f, s, t[f(t).value.len..], n + |Means(f, t)|))
  }

  /** The buffer only grows at its end. */
  lemma {:induction false} InPlaceKeeps(f: Cutter, s: string, t: string, out: string)
    requires Bounded(f) && Decodable(f, t) && |out| + |t| <= |s|
    ensures out <= InPlace(f, s, t, out)
    decreases |t|
  {
    if t != [] { InPlaceKeeps(f, s, t[f(t).value.len..], out + Writes(f, t, s[|out|])); }
  }

  /**
    Decoding in place gives what the text means exactly when no unknown '&'
    comes where the text before it has shrunk and left something else behind.
   */
  lemma {:induction false} InPlaceExactIff(f: Cutter, s: string, t: string, out: string)
    requires Bounded(f) && Decodable(f, t) && |out| + |t| <= |s|
    ensures InPlace(f, s, t, out) == out + Decode(f, t) <==> NoneStale(f, s, t, |out|)
    decreases |t|
  {
    if t == [] {
      assert out + [] == out;
    } else {
      var wrote, rest := Writes(f, t, s[|out|]), t[f(t).value.len..];
      InPlaceExactIff(f, s, rest, out + wrote);
      InPlaceKeeps(f, s, rest, out + wrote);
      FirstDifference(out, wrote, Means(f, t), InPlace(f, s, rest, out + wrote), Decode(f, rest));
    }
  }

  /** Two texts that agree up to a point and differ there are not the same. */
  lemma FirstDifference(out: string, wrote: string, means: string, all: string, rest: string)
    requires out + wrote <= all && |wrote| == |means| && (wrote != means ==> |wrote| == 1)
    ensures all == out + (means + rest) <==> wrote == means && all == (out + wrote) + rest
  {
    assert out + (means + rest) == (out + means) + rest;
    if wrote != means {
      assert all[|out|] == wrote[0] != (out + (means + rest))[|out|];
    }
  }

  /** The stale byte is real: "&lt;&x" comes out as "<lx". */
  lemma StaleExample()
    ensures Bounded(Next) && Decodable(Next, "&lt;&x")
    ensures Decode(Next, "&lt;&x") == "<&x" && InPlace(Next, "&lt;&x", "&lt;&x", "") == "<lx"
  {
    var s := "&lt;&x";
    NextBounded();
    assert Matches(s, Pattern(3)) && s[1] == 'l';
    assert !Matches(s, Pattern(0)) && !Matches(s, Pattern(1)) && !Matches(s, Pattern(2));
    assert Next(s) == Some(Token(4, Some("<")));
    assert s[4..] == "&x" && "&x"[1..] == "x" && "x"[1..] == "";
    assert Next("&x") == Some(Token(1, None));
    assert Next("x") == Some(Token(1, Some("x")));
    assert Decode(Next, "x") == "x" + Decode(Next, "");
    assert Decode(Next, "&x") == "&" + Decode(Next, "x");
  }
}
