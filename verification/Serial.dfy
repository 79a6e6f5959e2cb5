/**
  SerialBuf: values are pushed onto the end of a byte buffer and popped from it
  in the opposite order.
 */
module Serial {
  import opened Names

  type Byte = n: nat | n < 0x100
  type U64 = n: nat | n < 0x1_0000_0000_0000_0000
  type U32 = n: nat | n < 0x1_0000_0000
  type I32 = n: int | -0x8000_0000 <= n < 0x8000_0000

  /** What operator<< is given: a number of some width, a string, or a vector of such. */
  datatype Item = Num(width: nat, value: nat) | Str(chars: seq<Byte>) | Vec(elems: seq<Item>)

  /** The static type that picks operator>>. */
  datatype Shape = NumOf(width: nat) | StrOf | VecOf(elem: Shape)

  function Pow256(n: nat): (p: nat)
    ensures p > 0
  {
    if n == 0 then 1 else 256 * Pow256(n - 1)
  }

  lemma Pow256Eight()
    ensures Pow256(4) == 0x1_0000_0000 && Pow256(8) == 0x1_0000_0000_0000_0000
  {
    assert Pow256(2) == 0x1_0000;
    assert Pow256(4) == 256 * (256 * Pow256(2));
    assert Pow256(6) == 256 * (256 * Pow256(4));
    assert Pow256(8) == 256 * (256 * Pow256(6));
  }

  /** The bytes of a number, least significant first. */
  function Bytes(v: nat, n: nat): (b: seq<Byte>)
    ensures |b| == n
  {
    if n == 0 then [] else [v % 256] + Bytes(v / 256, n - 1)
  }

  function Value(b: seq<Byte>): nat {
    if b == [] then 0 else b[0] + 256 * Value(b[1..])
  }

  lemma {:induction false} ValueBytes(v: nat, n: nat)
    requires v < Pow256(n)
    ensures Value(Bytes(v, n)) == v
  {
    if n != 0 {
      assert v / 256 < Pow256(n - 1);
      ValueBytes(v / 256, n - 1);
      assert Bytes(v, n)[1..] == Bytes(v / 256, n - 1);
    }
  }

  lemma {:induction false} ValueBound(b: seq<Byte>)
    ensures Value(b) < Pow256(|b|)
  {
    if b != [] { ValueBound(b[1..]); }
  }

  lemma {:induction false} ValueAppend(a: seq<Byte>, c: Byte)
    ensures Value(a + [c]) == Value(a) + c * Pow256(|a|)
  {
    if a == [] {
      assert a + [c] == [c];
      assert Value([c]) == c + 256 * Value([]);
    } else {
      ValueAppend(a[1..], c);
      assert (a + [c])[1..] == a[1..] + [c];
      Scale(c, Pow256(|a| - 1));
    }
  }

  lemma ValuePrefix(b: seq<Byte>, i: nat)
    requires 0 < i <= |b|
    ensures Value(b[..i]) == Value(b[..i - 1]) + b[i - 1] * Pow256(i - 1)
  {
    assert b[..i] == b[..i - 1] + [b[i - 1]];
    ValueAppend(b[..i - 1], b[i - 1]);
  }

  lemma Scale(c: nat, p: nat)
    ensures 256 * (c * p) == c * (256 * p)
  {
  }

  /** Byte k of a number is what shifting right by 8k and masking leaves. */
  lemma {:induction false} ByteAt(v: nat, n: nat, k: nat)
    requires k < n
    ensures Bytes(v, n)[k] == v / Pow256(k) % 256
  {
    if k != 0 {
      ByteAt(v / 256, n - 1, k - 1);
      DivDiv(v, 256, Pow256(k - 1));
    }
  }

  lemma DivDiv(v: nat, a: nat, b: nat)
    requires 0 < a && 0 < b
    ensures 0 < a * b && v / a / b == v / (a * b)
  {
    var q, r := v / a, v % a;
    var s, t := q / b, q % b;
    assert v == a * q + r && q == b * s + t;
    assert v == (a * b) * s + (a * t + r) by { assert a * (b * s) == (a * b) * s; }
    assert a * t <= a * (b - 1);
    assert 0 <= a * t + r < a * b;
    DivUnique(v, a * b, s, a * t + r);
  }

  lemma DivUnique(v: int, d: int, q: int, r: int)
    requires 0 < d && v == d * q + r && 0 <= r < d
    ensures v / d == q && v % d == r
  {
    var e := v / d - q;
    assert v == d * (v / d) + v % d;
    assert d * e == r - v % d;
    if e >= 1 { TimesGrows(d, 1, e); }
    if e <= -1 { TimesGrows(d, e, -1); }
  }

  lemma TimesGrows(d: int, a: int, b: int)
    requires 0 < d && a <= b
    ensures d * a <= d * b
  {
  }

  // ----- encoding and decoding whole items -----

  /** What operator<< appends. */
  function Enc(x: Item): seq<Byte>
    decreases x, 1, 0
  {
    match x
    case Num(width, value) => Bytes(value, width)
    case Str(chars) => chars + Bytes(|chars|, 8)
    case Vec(elems) => EncFirst(x, |elems|) + Bytes(|elems|, 8)
  }

  function EncFirst(x: Item, n: nat): seq<Byte>
    requires x.Vec? && n <= |x.elems|
    decreases x, 0, n
  {
    if n == 0 then [] else EncFirst(x, n - 1) + Enc(x.elems[n - 1])
  }

  /** A string is its characters and then their number, in eight bytes. */
  lemma StringLayout(chars: seq<Byte>)
    ensures |Enc(Str(chars))| == |chars| + 8 && Enc(Str(chars))[..|chars|] == chars
    ensures forall k :: 0 <= k < 8 ==> Enc(Str(chars))[|chars| + k] == |chars| / Pow256(k) % 256
  {
    forall k | 0 <= k < 8 ensures Enc(Str(chars))[|chars| + k] == |chars| / Pow256(k) % 256 {
      ByteAt(|chars|, 8, k);
    }
  }

  /** A vector is its elements, first to last, and then their number, in eight bytes. */
  lemma VectorLayout(elems: seq<Item>, last: Item)
    ensures var body, more := Enc(Vec(elems)), Enc(Vec(elems + [last]));
            && 8 <= |body| && more == body[..|body| - 8] + Enc(last) + Bytes(|elems| + 1, 8)
            && Enc(Vec([])) == Bytes(0, 8)
  {
    var x, y := Vec(elems), Vec(elems + [last]);
    SameFirst(x, y, |elems|);
    assert Enc(x)[..|Enc(x)| - 8] == EncFirst(x, |elems|);
  }

  lemma {:induction false} SameFirst(x: Item, y: Item, n: nat)
    requires x.Vec? && y.Vec? && n <= |x.elems| <= |y.elems| && x.elems <= y.elems
    ensures EncFirst(x, n) == EncFirst(y, n)
  {
    if n != 0 { SameFirst(x, y, n - 1); }
  }

  /** Drops a number from the end of the buffer. */
  function DecNum(width: nat, buf: seq<Byte>): Option<(nat, seq<Byte>)> {
    if |buf| < width then None else Some((Value(buf[|buf| - width..]), buf[..|buf| - width]))
  }

  /** operator>>; None where the code would pop an empty buffer or a loop counter would not hold the length. */
  function Dec(shape: Shape, buf: seq<Byte>): Option<(Item, seq<Byte>)>
    decreases shape, 0, 0
  {
    match shape
    case NumOf(width) =>
      var r := DecNum(width, buf);
      if r.None? then None else Some((Num(width, r.value.0), r.value.1))
    case StrOf =>
      var r := DecNum(8, buf);
      if r.None? || r.value.0 >= 0x1_0000_0000 || |r.value.1| < r.value.0 then None
      else
        var cut := |r.value.1| - r.value.0;
        Some((Str(r.value.1[cut..]), r.value.1[..cut]))
    case VecOf(elem) =>
      var r := DecNum(8, buf);
      if r.None? || r.value.0 >= 0x1_0000_0000 then None
      else
        var m := DecMany(elem, r.value.0, r.value.1);
        if m.None? then None else Some((Vec(m.value.0), m.value.1))
  }

  /** n elements, the last one first. */
  function DecMany(shape: Shape, n: nat, buf: seq<Byte>): Option<(seq<Item>, seq<Byte>)>
    decreases shape, 1, n
  {
    if n == 0 then Some(([], buf))
    else
      var last := Dec(shape, buf);
      if last.None? then None
      else
        var rest := DecMany(shape, n - 1, last.value.1);
        if rest.None? then None else Some((rest.value.0 + [last.value.0], rest.value.1))
  }

  /** The item is of the static type, its numbers fit their widths and its lengths fit the loop counters. */
  predicate Fits(x: Item, shape: Shape) {
    match x
    case Num(width, value) => shape == NumOf(width) && value < Pow256(width)
    case Str(chars) => shape == StrOf && |chars| < 0x1_0000_0000
    case Vec(elems) => shape.VecOf? && |elems| < 0x1_0000_0000 && forall k :: 0 <= k < |elems| ==>
        Fits(elems[k], shape.elem)
  }

  lemma PopNum(pre: seq<Byte>, v: nat, width: nat)
    requires v < Pow256(width)
    ensures DecNum(width, pre + Bytes(v, width)) == Some((v, pre))
  {
    var buf := pre + Bytes(v, width);
    assert buf[|buf| - width..] == Bytes(v, width) && buf[..|buf| - width] == pre;
    ValueBytes(v, width);
  }

  lemma Fold<T>(a: seq<T>, b: seq<T>, c: seq<T>)
    ensures a + (b + c) == (a + b) + c
  {
  }

  /**
    Popping what was pushed gives the item back and leaves every earlier byte
    alone, for numbers, strings and vectors nested to any depth.
   */
  lemma {:induction false} ItemRoundTrip(x: Item, shape: Shape, pre: seq<Byte>)
    requires Fits(x, shape)
    ensures Dec(shape, pre + Enc(x)) == Some((x, pre))
    decreases x, 1, 0
  {
    Pow256Eight();
    match x
    case Num(width, value) => PopNum(pre, value, width);
    case Str(chars) =>
      Fold(pre, chars, Bytes(|chars|, 8));
      PopNum(pre + chars, |chars|, 8);
    case Vec(elems) =>
      Fold(pre, EncFirst(x, |elems|), Bytes(|elems|, 8));
      PopNum(pre + EncFirst(x, |elems|), |elems|, 8);
      ManyRoundTrip(x, shape.elem, |elems|, pre);
      assert elems[..|elems|] == elems;
  }

  lemma LastRead(shape: Shape, n: nat, buf: seq<Byte>, last: Item, mid: seq<Byte>, init: seq<Item>, rest: seq<Byte>)
    requires 0 < n && Dec(shape, buf) == Some((last, mid)) && DecMany(shape, n - 1, mid) == Some((init, rest))
    ensures DecMany(shape, n, buf) == Some((init + [last], rest))
  {
  }

  lemma {:induction false} ManyRoundTrip(x: Item, shape: Shape, n: nat, pre: seq<Byte>)
    requires x.Vec? && n <= |x.elems| && forall k :: 0 <= k < |x.elems| ==> Fits(x.elems[k], shape)
    ensures DecMany(shape, n, pre + EncFirst(x, n)) == Some((x.elems[..n], pre))
    decreases x, 0, n
  {
    if n == 0 {
      assert pre + [] == pre;
    } else {
      hide EncFirst, Enc, Dec, DecMany, Fits;
      ItemRoundTrip(x.elems[n - 1], shape, pre + EncFirst(x, n - 1));
      ManyRoundTrip(x, shape, n - 1, pre);
      ManyStep(x, shape, n, pre);
    }
  }

  lemma ManyStep(x: Item, shape: Shape, n: nat, pre: seq<Byte>)
    requires x.Vec? && 0 < n <= |x.elems|
    requires var before, last := pre + EncFirst(x, n - 1), x.elems[n - 1];
             && Dec(shape, before + Enc(last)) == Some((last, before))
             && DecMany(shape, n - 1, before) == Some((x.elems[..n - 1], pre))
    ensures DecMany(shape, n, pre + EncFirst(x, n)) == Some((x.elems[..n], pre))
  {
    hide EncFirst, Enc, Dec, DecMany;
    var before, last := pre + EncFirst(x, n - 1), x.elems[n - 1];
    OneMore(x, n, pre);
    LastRead(shape, n, before + Enc(last), last, before, x.elems[..n - 1], pre);
    TakeOneMore(x.elems, n);
  }

  lemma OneMore(x: Item, n: nat, pre: seq<Byte>)
    requires x.Vec? && 0 < n <= |x.elems|
    ensures pre + EncFirst(x, n) == (pre + EncFirst(x, n - 1)) + Enc(x.elems[n - 1])
  {
    Fold(pre, EncFirst(x, n - 1), Enc(x.elems[n - 1]));
  }

  lemma TakeOneMore<T>(s: seq<T>, n: nat)
    requires 0 < n <= |s|
    ensures s[..n] == s[..n - 1] + [s[n - 1]]
  {
  }

  /** No encoding of one type ends another of the same type: the buffer determines item and remainder. */
  lemma EncodingUnique(x: Item, y: Item, shape: Shape, pre: seq<Byte>, pro: seq<Byte>)
    requires Fits(x, shape) && Fits(y, shape) && pre + Enc(x) == pro + Enc(y)
    ensures x == y && pre == pro
  {
    ItemRoundTrip(x, shape, pre);
    ItemRoundTrip(y, shape, pro);
  }

  // ----- the buffer -----

  ghost function Joined(r: Option<(seq<Item>, seq<Byte>)>, more: seq<Item>): Option<(seq<Item>, seq<Byte>)> {
    if r.None? then None else Some((r.value.0 + more, r.value.1))
  }

  class SerialBuf {
    var buf: seq<Byte>

    constructor ()
      ensures buf == []
    {
      buf := [];
    }

    method PushBack(c: Byte)
      modifies this
      ensures buf == old(buf) + [c]
    {
      buf := buf + [c];
    }

    method PopBack() returns (c: Byte)
      requires buf != []
      modifies this
      ensures buf == old(buf)[..|old(buf)| - 1] && c == old(buf)[|old(buf)| - 1]
    {
      c := buf[|buf| - 1];
      buf := buf[..|buf| - 1];
    }

    method Out(tmp: nat, len: nat)
      modifies this
      ensures buf == old(buf) + Bytes(tmp, len)
    {
      for i := 0 to len
        invariant buf == old(buf) + Bytes(tmp, len)[..i]
      {
        ByteAt(tmp, len, i);
        PushBack(tmp / Pow256(i) % 256);
      }
    }

    /** The bytes never overlap, so or-ing them in is adding them. */
    method In(len: nat) returns (tmp: nat)
      requires len <= |buf|
      modifies this
      ensures Some((tmp, buf)) == DecNum(len, old(buf))
    {
      ghost var all := buf;
      ghost var field := buf[|buf| - len..];
      tmp := 0;
      var i := len;
      assert field[..i] == field;
      while i > 0
        invariant 0 <= i <= len
        invariant buf == all[..|all| - len + i]
        invariant Value(field) == Value(field[..i]) + tmp
      {
        var c := PopBack();
        assert c == field[i - 1];
        ValuePrefix(field, i);
        tmp := tmp + c * Pow256(i - 1);
        i := i - 1;
      }
      assert Value(field[..0]) == 0;
    }

    method PutString(s: seq<Byte>)
      requires |s| < 0x1_0000_0000
      modifies this
      ensures buf == old(buf) + Enc(Str(s))
    {
      for i := 0 to |s|
        invariant buf == old(buf) + s[..i]
      {
        PushBack(s[i]);
      }
      assert s[..|s|] == s;
      Out(|s|, 8);
      Fold(old(buf), s, Bytes(|s|, 8));
    }

    method GetString() returns (s: seq<Byte>)
      requires Dec(StrOf, buf).Some?
      modifies this
      ensures Some((Str(s), buf)) == Dec(StrOf, old(buf))
    {
      var len := In(8);
      ghost var all := buf;
      s := seq(len, _ => 0);
      var i := len;
      while i > 0
        invariant 0 <= i <= len == |s|
        invariant buf == all[..|all| - len + i]
        invariant s[i..] == all[|all| - len + i..]
      {
        var c := PopBack();
        s := s[i - 1 := c];
        i := i - 1;
      }
    }

    /** operator<< for every type the events use. */
    method Put(x: Item, ghost shape: Shape)
      requires Fits(x, shape)
      modifies this
      ensures buf == old(buf) + Enc(x)
      decreases x
    {
      match x
      case Num(width, value) => Out(value, width);
      case Str(chars) => PutString(chars);
      case Vec(elems) =>
        for i := 0 to |elems|
          invariant buf == old(buf) + EncFirst(x, i)
        {
          Put(elems[i], shape.elem);
          Fold(old(buf), EncFirst(x, i), Enc(elems[i]));
        }
        Out(|elems|, 8);
        Fold(old(buf), EncFirst(x, |elems|), Bytes(|elems|, 8));
    }

    /** operator>> for every type the events use. */
    method Get(shape: Shape) returns (x: Item)
      requires Dec(shape, buf).Some?
      modifies this
      ensures Some((x, buf)) == Dec(shape, old(buf))
      decreases shape
    {
      match shape
      case NumOf(width) =>
        var v := In(width);
        x := Num(width, v);
      case StrOf =>
        var s := GetString();
        x := Str(s);
      case VecOf(elem) =>
        var len := In(8);
        ghost var all := buf;
        var vec := seq(len, _ => Num(0, 0));
        var i := len;
        assert vec[len..] == [];
        assert DecMany(elem, len, all).value.0 + [] == DecMany(elem, len, all).value.0;
        while i > 0
          invariant 0 <= i <= len == |vec|
          invariant DecMany(elem, i, buf).Some?
          invariant DecMany(elem, len, all) == Joined(DecMany(elem, i, buf), vec[i..])
        {
          ghost var now, tail := buf, vec[i..];
          var e := Get(elem);
          vec := vec[i - 1 := e];
          i := i - 1;
          assert vec[i..] == [e] + tail;
          Fold(DecMany(elem, i, buf).value.0, [e], tail);
        }
        assert vec[0..] == vec && [] + vec == vec;
        x := Vec(vec);
    }
  }
}
