/** Printing a string with entities, and reading one back inside its buffer. */
module XmlStrings {
  import opened Names
  import opened XmlText

  /** The character is written as an entity: in attribute values all five, in text three. */
  predicate Flagged(c: char, restricted: bool) {
    c == '&' || c == '<' || c == '>' || (!restricted && (c == '"' || c == '\''))
  }

  function PatternOf(c: char): string {
    if c == '"' then "quot" else if c == '&' then "amp" else if c == '\'' then "apos" else if c == '<' then "lt"
        else "gt"
  }

  function EscapeChar(c: char, restricted: bool): string {
    if Flagged(c, restricted) then "&" + PatternOf(c) + ";" else [c]
  }

  function Escape(s: string, restricted: bool): string {
    if s == [] then [] else EscapeChar(s[0], restricted) + Escape(s[1..], restricted)
  }

  lemma {:induction false} EscapeAppend(a: string, b: string, restricted: bool)
    ensures Escape(a + b, restricted) == Escape(a, restricted) + Escape(b, restricted)
  {
    if a == [] {
      assert a + b == b;
    } else {
      assert (a + b)[0] == a[0] && (a + b)[1..] == a[1..] + b;
      EscapeAppend(a[1..], b, restricted);
    }
  }

  lemma {:induction false} EscapePlain(s: string, restricted: bool)
    requires forall k :: 0 <= k < |s| ==> !Flagged(s[k], restricted)
    ensures Escape(s, restricted) == s
  {
    if s != [] { EscapePlain(s[1..], restricted); }
  }

  lemma EscapeOne(s: string, k: nat, restricted: bool)
    requires k < |s|
    ensures Escape(s[..k + 1], restricted) == Escape(s[..k], restricted) + EscapeChar(s[k], restricted)
  {
    assert s[..k + 1] == s[..k] + [s[k]];
    EscapeAppend(s[..k], [s[k]], restricted);
    assert [s[k]][1..] == [];
    assert Escape([s[k]], restricted) == EscapeChar(s[k], restricted) + Escape([], restricted);
  }

  /** The characters from p to q as they are. */
  method FlushRun(s: string, p: nat, q: nat, buffer: string) returns (out: string)
    requires p <= q <= |s|
    ensures out == buffer + s[p..q]
  {
    out := buffer;
    for k := p to q
      invariant out == buffer + s[p..k]
    {
      out := out + [s[k]];
    }
  }

  method PrintEntity(c: char, buffer: string) returns (out: string)
    requires Flagged(c, false)
    ensures out == buffer + ("&" + PatternOf(c) + ";")
  {
    assert c == Value(0) || c == Value(1) || c == Value(2) || c == Value(3) || c == Value(4);
    out := buffer;
    for i := 0 to ENTITIES
      invariant out == buffer && forall j :: 0 <= j < i ==> Value(j) != c
    {
      if Value(i) == c { return out + ("&" + Pattern(i) + ";"); }
    }
  }

  /**
    PrintString: runs of plain characters are flushed when an entity comes, and
    at the end. The result is every character escaped by itself.
   */
  method PrintString(s: string, restricted: bool, buffer: string) returns (out: string)
    ensures out == buffer + Escape(s, restricted)
  {
    out := buffer;
    var p, q := 0, 0;
    while q < |s|
      invariant 0 <= p <= q <= |s|
      invariant out == buffer + Escape(s[..p], restricted)
      invariant forall k :: p <= k < q ==> !Flagged(s[k], restricted)
    {
      if s[q] as nat < 64 && Flagged(s[q], restricted) {
        EntityFlushed(s, p, q, restricted, buffer);
        out := FlushRun(s, p, q, out);
        out := PrintEntity(s[q], out);
        p := q + 1;
      }
      q := q + 1;
    }
    RunFlushed(s, p, |s|, restricted);
    assert s[..|s|] == s;
    if q - p > 0 { out := out + s[p..]; }
  }

  lemma EntityFlushed(s: string, p: nat, q: nat, restricted: bool, buffer: string)
    requires p <= q < |s| && Flagged(s[q], restricted) && forall k :: p <= k < q ==> !Flagged(s[k], restricted)
    ensures buffer + Escape(s[..q + 1], restricted)
         == ((buffer + Escape(s[..p], restricted)) + s[p..q]) + ("&" + PatternOf(s[q]) + ";")
  {
    RunFlushed(s, p, q, restricted);
    EscapeOne(s, q, restricted);
  }

  lemma RunFlushed(s: string, p: nat, q: nat, restricted: bool)
    requires p <= q <= |s| && forall k :: p <= k < q ==> !Flagged(s[k], restricted)
    ensures Escape(s[..q], restricted) == Escape(s[..p], restricted) + s[p..q]
  {
    assert s[..q] == s[..p] + s[p..q];
    EscapeAppend(s[..p], s[p..q], restricted);
    EscapePlain(s[p..q], restricted);
  }

  // ----- decoding what was escaped -----

  predicate NoCr(s: string) { forall k :: 0 <= k < |s| ==> s[k] != CR }

  lemma {:induction false} EscapeNoCr(s: string, restricted: bool)
    requires NoCr(s)
    ensures NoCr(Escape(s, restricted))
  {
    if s != [] {
      EscapeNoCr(s[1..], restricted);
      assert NoCr(EscapeChar(s[0], restricted));
    }
  }

  function IndexOf(c: char): nat {
    if c == '"' then 0 else if c == '&' then 1 else if c == '\'' then 2 else if c == '<' then 3 else 4
  }

  /** The first two letters tell the five patterns apart. */
  lemma PatternsDiffer(t: string, i: nat, k: nat)
    requires i < ENTITIES && k < ENTITIES && Matches(t, Pattern(i)) && Matches(t, Pattern(k))
    ensures i == k
  {
    assert t[1 + 0] == Pattern(i)[0] == Pattern(k)[0];
    assert t[1 + 1] == Pattern(i)[1] == Pattern(k)[1];
  }

  lemma {:induction false} Skip(t: string, i: nat, k: nat)
    requires i <= k < ENTITIES && t != [] && Matches(t, Pattern(k))
    ensures EntityToken(t, i) == Token(|Pattern(k)| + 2, Some([Value(k)]))
    decreases k - i
  {
    if i != k {
      if Matches(t, Pattern(i)) { PatternsDiffer(t, i, k); }
      Skip(t, i + 1, k);
    }
  }

  lemma EntityNext(c: char, rest: string)
    requires Flagged(c, false)
    ensures var t := "&" + PatternOf(c) + ";" + rest;
            Next(t) == Some(Token(|t| - |rest|, Some([c]))) && t[|t| - |rest|..] == rest
  {
    var t := "&" + PatternOf(c) + ";" + rest;
    var k := IndexOf(c);
    assert Pattern(k) == PatternOf(c) && Value(k) == c;
    assert t[1 + |Pattern(k)|] == ';';
    assert Matches(t, Pattern(k));
    Skip(t, 0, k);
    assert t[1] == Pattern(k)[0] && t[1] != '#';
  }

  /** One token of an escaped text: a character, flagged or not. */
  lemma EscapedNext(c: char, rest: string, restricted: bool)
    requires c != CR && NoCr(rest)
    ensures var t := EscapeChar(c, restricted) + rest;
            var k := Next(t);
            k.Some? && k.value.emit == Some([c]) && t[k.value.len..] == rest
  {
    var t := EscapeChar(c, restricted) + rest;
    if Flagged(c, restricted) {
      EntityNext(c, rest);
      assert t == "&" + PatternOf(c) + ";" + rest;
    } else {
      assert t[0] == c && t[1..] == rest;
    }
  }

  /** A name for Next whose definition stays out of the way. */
  ghost predicate IsNext(f: Cutter) {
    Bounded(f) && forall t: string {:trigger Next(t)} :: f(t) == Next(t)
  }

  /**
    Decoding the escaped form of any text without CR gives the text back, and the
    in-place decoder finds nothing it does not know on the way.
   */
  lemma {:induction false} EscapeDecoded(f: Cutter, s: string, restricted: bool)
    requires IsNext(f) && NoCr(s)
    ensures Decodable(f, Escape(s, restricted)) && Decode(f, Escape(s, restricted)) == s
    ensures forall all: string, n: nat :: n + |Escape(s, restricted)| <= |all| ==>
        NoneStale(f, all, Escape(s, restricted), n)
  {
    if s != [] {
      var t := Escape(s, restricted);
      EscapeDecoded(f, s[1..], restricted);
      EscapeNoCr(s[1..], restricted);
      EscapedNext(s[0], Escape(s[1..], restricted), restricted);
      assert f(t) == Next(t);
      assert s == [s[0]] + s[1..];
    }
  }

  /** Escaped text survives the in-place decoder. */
  lemma EscapeInPlace(f: Cutter, s: string, restricted: bool)
    requires IsNext(f) && NoCr(s)
    ensures var t := Escape(s, restricted); Decodable(f, t) && InPlace(f, t, t, []) == s
  {
    var t := Escape(s, restricted);
    EscapeDecoded(f, s, restricted);
    InPlaceExactIff(f, t, t, []);
    assert [] + Decode(f, t) == Decode(f, t);
  }

  // ----- the in-place decoder -----

  /** The entity loop of GetStr. */
  method FindEntity(t: string) returns (k: Token)
    requires t != []
    ensures k == EntityToken(t, 0)
  {
    for i := 0 to ENTITIES
      invariant EntityToken(t, 0) == EntityToken(t, i)
    {
      if Matches(t, Pattern(i)) { return Token(|Pattern(i)| + 2, Some([Value(i)])); }
    }
    return Token(1, None);
  }

  /** One turn of the loop of GetStr: what is read at once and what is written for it. */
  method Step(t: string) returns (k: Option<Token>)
    requires t != []
    ensures k == Next(t)
  {
    if t[0] == CR {
      k := Some(Token(if 1 < |t| && t[1] == LF then 2 else 1, Some([LF])));
    } else if t[0] == LF {
      k := Some(Token(if 1 < |t| && t[1] == CR then 2 else 1, Some([LF])));
    } else if t[0] == '&' {
      if 1 < |t| && t[1] == '#' {
        if |t| == 2 { return Some(Token(1, Some([]))); }
        var r := GetCharacterRef(t);
        if r.None? { return None; }
        var bytes := ConvertUTF32ToUTF8(r.value.0);
        k := Some(Token(r.value.1, Some(bytes)));
      } else {
        var e := FindEntity(t);
        k := Some(e);
      }
    } else {
      k := Some(Token(1, Some([t[0]])));
    }
  }

  method Take(t: string, ghost f: Cutter) returns (k: Option<Token>)
    requires IsNext(f) && t != []
    ensures k == f(t)
  {
    assert f(t) == Next(t);
    k := Step(t);
  }

  method WriteAt(mem: array<char>, q: nat, s: string)
    requires q + |s| <= mem.Length
    modifies mem
    ensures mem[..] == old(mem[..])[..q] + s + old(mem[..])[q + |s|..]
  {
    ghost var m := mem[..];
    for i := 0 to |s|
      invariant mem[..] == m[..q] + s[..i] + m[q + i..]
    {
      mem[q + i] := s[i];
      OneMore(m, q, s, i, mem[..]);
    }
  }

  lemma OneMore(m: string, q: nat, s: string, i: nat, n: string)
    requires i < |s| && q + |s| <= |m| && n == (m[..q] + s[..i] + m[q + i..])[q + i := s[i]]
    ensures n == m[..q] + s[..i + 1] + m[q + i + 1..]
  {
  }

  /** The text from the write pointer on is untouched. */
  predicate Intact(m: string, start: nat, end: nat, q: nat, s: string) {
    start <= q <= end < |m| && |s| == end - start && m[q..end] == s[q - start..]
  }

  lemma Ahead(m: string, start: nat, end: nat, p: nat, q: nat, s: string)
    requires Intact(m, start, end, q, s) && q <= p < end
    ensures m[p..end] == s[p - start..] && m[q] == s[q - start]
  {
    assert m[p..end] == m[q..end][p - q..];
    assert m[q..end][0] == m[q];
  }

  lemma Spliced(m: string, start: nat, end: nat, q: nat, s: string, w: string)
    requires Intact(m, start, end, q, s) && q + |w| <= end
    ensures var n := m[..q] + w + m[q + |w|..];
            && Intact(n, start, end, q + |w|, s) && n[start..q + |w|] == m[start..q] + w
            && n[..start] == m[..start] && n[end..] == m[end..]
  {
    var n := m[..q] + w + m[q + |w|..];
    assert n[start..q + |w|] == m[start..q] + w;
    assert n[q + |w|..end] == m[q..end][|w|..];
    assert s[q - start..][|w|..] == s[q + |w| - start..];
  }

  /** What the loop of GetStr keeps: the end result does not change. */
  ghost predicate Decoding(f: Cutter, m: string, start: nat, end: nat, p: nat, q: nat, s: string)
    requires Bounded(f)
  {
    && Intact(m, start, end, q, s) && q <= p <= end
    && (Decodable(f, s) <==> Decodable(f, s[p - start..]))
    && (Decodable(f, s) ==> InPlace(f, s, s, []) == InPlace(f, s, s[p - start..], m[start..q]))
  }

  lemma Advanced(f: Cutter, m: string, start: nat, end: nat, p: nat, q: nat, s: string, k: Token, w: string)
    returns (n: string)
    requires Bounded(f) && Decoding(f, m, start, end, p, q, s) && p < end
    requires f(s[p - start..]) == Some(k) && w == Writes(f, s[p - start..], m[q])
    ensures q + |w| <= p + k.len <= end && n == m[..q] + w + m[q + |w|..]
    ensures Decoding(f, n, start, end, p + k.len, q + |w|, s)
  {
    n := m[..q] + w + m[q + |w|..];
    Ahead(m, start, end, p, q, s);
    Spliced(m, start, end, q, s, w);
    assert s[p + k.len - start..] == s[p - start..][k.len..];
  }

  /** One turn of the loop of GetStr. */
  method Advance(mem: array<char>, start: nat, end: nat, p: nat, q: nat, ghost f: Cutter, ghost s: string)
    returns (p': nat, q': nat, ok: bool)
    requires IsNext(f) && Decoding(f, mem[..], start, end, p, q, s) && p < end
    modifies mem
    ensures if ok then Decoding(f, mem[..], start, end, p', q', s) && p < p' else !Decodable(f, s)
    ensures mem[..][..start] == old(mem[..])[..start] && mem[..][end..] == old(mem[..])[end..]
  {
    ghost var m := mem[..];
    var t := Slice(mem, p, end);
    Ahead(m, start, end, p, q, s);
    var found := Take(t, f);
    if found.None? { return p, q, false; }
    var k := found.value;
    var w := Written(mem, q, k);
    p', q', ok := p + k.len, q + |w|, true;
    ghost var n := Advanced(f, m, start, end, p, q, s, k, w);
    Spliced(m, start, end, q, s, w);
    WriteAt(mem, q, w);
    assert mem[..] == n;
  }

  method Slice(mem: array<char>, p: nat, end: nat) returns (t: string)
    requires p <= end <= mem.Length
    ensures t == mem[..][p..end]
  {
    t := mem[p..end];
  }

  /** An entity nobody knows: the pointers move on, the byte stays. */
  method Written(mem: array<char>, q: nat, k: Token) returns (w: string)
    requires q < mem.Length
    ensures w == if k.emit.Some? then k.emit.value else [mem[..][q]]
  {
    w := if k.emit.Some? then k.emit.value else [mem[q]];
  }

  /**
    GetStr of a value in mem[start..end]: decoded where it is, and terminated.
    None when it follows the null pointer that GetCharacterRef returns, which it
    does exactly for a value with a reference that is incomplete or not a number.
   */
  method GetStr(mem: array<char>, start: nat, end: nat, ghost f: Cutter) returns (stop: Option<nat>)
    requires IsNext(f) && start <= end < mem.Length
    modifies mem
    ensures stop.None? <==> !Decodable(f, old(mem[..])[start..end])
    ensures stop.Some? ==> start <= stop.value <= end && mem[stop.value] == NUL
    ensures stop.Some? ==>
              mem[..][start..stop.value] == InPlace(f, old(mem[..])[start..end], old(mem[..])[start..end], [])
    ensures mem[..][..start] == old(mem[..])[..start] && mem[..][end + 1..] == old(mem[..])[end + 1..]
  {
    ghost var m0 := mem[..];
    ghost var s := m0[start..end];
    mem[end] := NUL;
    ghost var m1 := mem[..];
    Begin(f, m0, m1, start, end, s);
    var p, q := start, start;
    while p < end
      invariant Decoding(f, mem[..], start, end, p, q, s)
      invariant mem[..][..start] == m1[..start] && mem[..][end..] == m1[end..]
      decreases end - p
    {
      var ok;
      p, q, ok := Advance(mem, start, end, p, q, f, s);
      if !ok {
        Untouched(m0, m1, mem[..], start, end);
        return None;
      }
    }
    ghost var m2 := mem[..];
    mem[q] := NUL;
    stop := Some(q);
    Finish(f, m0, m1, m2, mem[..], start, end, q, s);
  }

  lemma Untouched(m0: string, m1: string, m2: string, start: nat, end: nat)
    requires start <= end < |m0| == |m1| == |m2| && m1 == m0[end := NUL]
    requires m2[..start] == m1[..start] && m2[end..] == m1[end..]
    ensures m2[..start] == m0[..start] && m2[end + 1..] == m0[end + 1..]
  {
    assert m2[end + 1..] == m2[end..][1..] && m1[end + 1..] == m1[end..][1..];
  }

  lemma Finish(f: Cutter, m0: string, m1: string, m2: string, m3: string, start: nat, end: nat, q: nat, s: string)
    requires Bounded(f) && start <= q <= end < |m0| == |m1| == |m2|
    requires m1 == m0[end := NUL] && m3 == m2[q := NUL] && Decoding(f, m2, start, end, end, q, s)
    requires m2[..start] == m1[..start] && m2[end..] == m1[end..]
    ensures Decodable(f, s) && m3[start..q] == InPlace(f, s, s, []) && m3[..start] == m0[..start]
        && m3[end + 1..] == m0[end + 1..]
  {
    assert m3[start..q] == m2[start..q];
    assert s[end - start..] == [];
    assert m2[end + 1..] == m2[end..][1..] && m1[end + 1..] == m1[end..][1..];
  }

  lemma Begin(f: Cutter, m0: string, m: string, start: nat, end: nat, s: string)
    requires Bounded(f) && start <= end < |m0| && m == m0[end := NUL] && s == m0[start..end]
    ensures Decoding(f, m, start, end, start, start, s)
  {
    assert m[start..end] == s;
    assert s[0..] == s && m[start..start] == [] && start - start == 0;
  }

  /** What PrintString wrote for a value is read back as the value, wherever it lies in the buffer. */
  method ReadBack(mem: array<char>, start: nat, end: nat, ghost s: string) returns (stop: nat)
    requires start <= end < mem.Length && NoCr(s) && mem[..][start..end] == Escape(s, false)
    modifies mem
    ensures start <= stop <= end && mem[stop] == NUL && mem[..][start..stop] == s
    ensures mem[..][..start] == old(mem[..])[..start] && mem[..][end + 1..] == old(mem[..])[end + 1..]
  {
    ghost var f: Cutter := Next;
    NextBounded();
    EscapeInPlace(f, s, false);
    var r := GetStr(mem, start, end, f);
    stop := r.value;
  }
}
