/**
  The printer as it runs, the parser as it runs, and the round trip from a tree
  of elements through text and back, values included.
 */
module XmlDocument {
  import opened Names
  import opened XmlText
  import opened XmlStrings
  import opened XmlTree

  // ----- values -----

  function EscapedAttrs(attrs: seq<Attribute>): (r: seq<Attribute>)
    ensures |r| == |attrs| && forall k :: 0 <= k < |attrs| ==>
        r[k] == Attribute(attrs[k].name, Escape(attrs[k].value, false))
  {
    seq(|attrs|, k requires 0 <= k < |attrs| => Attribute(attrs[k].name, Escape(attrs[k].value, false)))
  }

  /** The element as it stands in the text. */
  function Escaped(e: Elem): Elem {
    Elem(e.name, EscapedAttrs(e.attrs), seq(|e.kids|, k requires 0 <= k < |e.kids| => Escaped(e.kids[k])))
  }

  function EscapedAll(es: seq<Elem>): (r: seq<Elem>)
    ensures |r| == |es| && forall k :: 0 <= k < |es| ==> r[k] == Escaped(es[k])
  {
    seq(|es|, k requires 0 <= k < |es| => Escaped(es[k]))
  }

  predicate PrintableAttrs(attrs: seq<Attribute>) {
    && (forall k :: 0 <= k < |attrs| ==> LegalName(attrs[k].name) && NoCr(attrs[k].value) && NUL !in attrs[k].value)
    && (forall i, j :: 0 <= i < j < |attrs| ==> attrs[i].name != attrs[j].name)
  }

  /** Legal names, distinct attribute names, and values without CR and NUL. */
  predicate Printable(e: Elem) {
    LegalName(e.name) && PrintableAttrs(e.attrs) && forall k :: 0 <= k < |e.kids| ==> Printable(e.kids[k])
  }

  lemma {:induction false} EscapeNoQuote(s: string)
    ensures NoQuote(Escape(s, false))
  {
    if s != [] {
      EscapeNoQuote(s[1..]);
      assert NoQuote(EscapeChar(s[0], false));
    }
  }

  lemma {:induction false} EscapedLegal(e: Elem)
    requires Printable(e)
    ensures Legal(Escaped(e))
  {
    forall k | 0 <= k < |e.attrs| ensures NoQuote(Escaped(e).attrs[k].value) { EscapeNoQuote(e.attrs[k].value); }
    forall k | 0 <= k < |e.kids| ensures Legal(Escaped(e).kids[k]) { EscapedLegal(e.kids[k]); }
  }

  /** Value() of every attribute can be asked for. */
  ghost predicate Readable(f: Cutter, e: Elem)
    requires Bounded(f)
  {
    && (forall k :: 0 <= k < |e.attrs| ==> Decodable(f, e.attrs[k].value))
    && (forall k :: 0 <= k < |e.kids| ==> Readable(f, e.kids[k]))
  }

  ghost function ValuesOf(f: Cutter, attrs: seq<Attribute>): seq<Attribute>
    requires Bounded(f) && forall k :: 0 <= k < |attrs| ==> Decodable(f, attrs[k].value)
  {
    seq(|attrs|, k requires 0 <= k < |attrs| =>
      Attribute(attrs[k].name, InPlace(f, attrs[k].value, attrs[k].value, [])))
  }

  /** The element as its accessors show it. */
  ghost function Decoded(f: Cutter, e: Elem): Elem
    requires Bounded(f) && Readable(f, e)
  {
    Elem(e.name, ValuesOf(f, e.attrs), seq(|e.kids|, k requires 0 <= k < |e.kids| => Decoded(f, e.kids[k])))
  }

  lemma AttrsBack(f: Cutter, attrs: seq<Attribute>)
    requires IsNext(f) && PrintableAttrs(attrs)
    ensures forall k :: 0 <= k < |attrs| ==> Decodable(f, EscapedAttrs(attrs)[k].value)
    ensures ValuesOf(f, EscapedAttrs(attrs)) == attrs
  {
    forall k | 0 <= k < |attrs|
      ensures var v := Escape(attrs[k].value, false); Decodable(f, v) && InPlace(f, v, v, []) == attrs[k].value
    {
      EscapeInPlace(f, attrs[k].value, false);
    }
  }

  lemma {:induction false} DecodedEscaped(f: Cutter, e: Elem)
    requires IsNext(f) && Printable(e)
    ensures Readable(f, Escaped(e)) && Decoded(f, Escaped(e)) == e
  {
    AttrsBack(f, e.attrs);
    forall k | 0 <= k < |e.kids| ensures Readable(f, Escaped(e).kids[k])
        && Decoded(f, Escaped(e).kids[k]) == e.kids[k] {
      DecodedEscaped(f, e.kids[k]);
    }
    assert Decoded(f, Escaped(e)).kids == e.kids;
  }

  /**
    Printing elements and parsing the text gives, for every list of root
    elements, in compact and in indented form, the same names, attributes, values
    and nesting.
   */
  lemma PrintParse(f: Cutter, roots: seq<Elem>, compact: bool)
    requires IsNext(f) && forall k :: 0 <= k < |roots| ==> Printable(roots[k])
    ensures var l := ParseLevel(DocText(EscapedAll(roots), compact, ""));
            && l.Level? && l.end == None && |l.kids| == |roots|
            && forall k :: 0 <= k < |roots| ==> Readable(f, l.kids[k]) && Decoded(f, l.kids[k]) == roots[k]
  {
    var es := EscapedAll(roots);
    forall k | 0 <= k < |roots| ensures Legal(es[k]) && Readable(f, es[k]) && Decoded(f, es[k]) == roots[k] {
      EscapedLegal(roots[k]);
      DecodedEscaped(f, roots[k]);
    }
    DocRead(es, compact);
  }

  // ----- the printer -----

  lemma Fold(a: string, b: string, c: string)
    ensures a + (b + c) == (a + b) + c
  {
  }

  lemma {:induction false} AttrsAppend(attrs: seq<Attribute>, t: string)
    ensures AttrsText(attrs, t) == AttrsText(attrs, "") + t
  {
    if attrs == [] {
      assert "" + t == t;
    } else {
      var a, rest := attrs[0], AttrsText(attrs[1..], "");
      AttrsAppend(attrs[1..], t);
      assert AttrText(a, rest + t) == AttrText(a, rest) + t;
      Fold(" ", AttrText(a, rest), t);
    }
  }

  lemma {:induction false} TextAppend(e: Elem, depth: nat, compact: bool, t: string)
    ensures Text(e, depth, compact, t) == Text(e, depth, compact, "") + t
    decreases e, 1, 0
  {
    var c, d := Closing(e, depth, compact, ""), Closing(e, depth, compact, t);
    ClosingAppend(e, depth, compact, t);
    AttrsAppend(e.attrs, c);
    AttrsAppend(e.attrs, d);
    Fold(AttrsText(e.attrs, ""), c, t);
    Fold(e.name, AttrsText(e.attrs, c), t);
    Fold("<", e.name + AttrsText(e.attrs, c), t);
    Fold(Indent(depth, compact), "<" + (e.name + AttrsText(e.attrs, c)), t);
  }

  lemma {:induction false} ClosingAppend(e: Elem, depth: nat, compact: bool, t: string)
    ensures Closing(e, depth, compact, t) == Closing(e, depth, compact, "") + t
    decreases e, 0, |e.kids| + 1
  {
    if e.kids == [] {
      assert "/" + (">" + t) == ("/" + (">" + "")) + t;
    } else {
      EndAppend(e, depth, compact, t);
      KidsAppend(e, 0, depth + 1, compact, EndText(e, depth, compact, t));
      KidsAppend(e, 0, depth + 1, compact, EndText(e, depth, compact, ""));
      Fold(KidsText(e, 0, depth + 1, compact, ""), EndText(e, depth, compact, ""), t);
      Fold(">", KidsText(e, 0, depth + 1, compact, EndText(e, depth, compact, "")), t);
    }
  }

  lemma EndAppend(e: Elem, depth: nat, compact: bool, t: string)
    ensures EndText(e, depth, compact, t) == EndText(e, depth, compact, "") + t
  {
    var tag := "/" + (e.name + (">" + ""));
    assert "/" + (e.name + (">" + t)) == tag + t;
    Fold("<", tag, t);
    Fold(Indent(depth, compact), "<" + tag, t);
    Fold(Break(compact), Indent(depth, compact) + ("<" + tag), t);
  }

  lemma {:induction false} KidsAppend(e: Elem, k: nat, depth: nat, compact: bool, t: string)
    requires k <= |e.kids|
    ensures KidsText(e, k, depth, compact, t) == KidsText(e, k, depth, compact, "") + t
    decreases e, 0, |e.kids| - k
  {
    if k == |e.kids| {
      assert "" + t == t;
    } else {
      var x, y := KidsText(e, k + 1, depth, compact, ""), KidsText(e, k + 1, depth, compact, t);
      KidsAppend(e, k + 1, depth, compact, t);
      TextAppend(e.kids[k], depth, compact, x);
      TextAppend(e.kids[k], depth, compact, y);
      Fold(Text(e.kids[k], depth, compact, ""), x, t);
      Fold(Break(compact), Text(e.kids[k], depth, compact, x), t);
    }
  }

  /** XMLPrinter, printing into its buffer. */
  class XMLPrinter {
    const compactMode: bool
    var elementJustOpened: bool
    var firstElement: bool
    var depth: nat
    var stack: seq<string>
    var buffer: string

    constructor (compact: bool)
      ensures compactMode == compact && buffer == "" && Ready() && firstElement && !elementJustOpened && depth == 0
    {
      compactMode, elementJustOpened, firstElement, depth, stack, buffer := compact, false, true, 0, [], "";
    }

    ghost predicate Ready()
      reads this
    {
      |stack| == depth
    }

    /** The buffer with what the state still owes before the next element: the end of a tag, and a new line. */
    ghost function Flushed(): string
      reads this
    {
      var sealed := if elementJustOpened then buffer + ">" else buffer;
      if firstElement then sealed else sealed + Break(compactMode)
    }

    method SealElement()
      modifies this`elementJustOpened, this`buffer
      ensures !elementJustOpened && buffer == old(buffer) + ">"
    {
      elementJustOpened := false;
      buffer := buffer + ">";
    }

    method PrintSpace(n: nat)
      modifies this`buffer
      ensures buffer == old(buffer) + Spaces(n)
    {
      var before := buffer;
      var spaces := "";
      for i := 0 to n
        invariant buffer == before && spaces == Spaces(i)
      {
        spaces := "    " + spaces;
      }
      buffer := buffer + spaces;
    }

    method OpenElement(name: string)
      requires Ready()
      modifies this
      ensures Ready() && elementJustOpened && !firstElement && depth == old(depth) + 1 && stack == old(stack) + [name]
      ensures buffer == old(Flushed()) + Indent(old(depth), compactMode) + "<" + name
    {
      ghost var all := Flushed();
      if elementJustOpened { SealElement(); }
      stack := stack + [name];
      if !firstElement && !compactMode { buffer := buffer + "\n"; }
      assert buffer == all;
      if !compactMode { PrintSpace(depth); }
      buffer := buffer + "<" + name;
      elementJustOpened, firstElement := true, false;
      depth := depth + 1;
    }

    method PushAttribute(name: string, value: string)
      modifies this`buffer
      ensures buffer == old(buffer) + (" " + AttrText(Attribute(name, Escape(value, false)), ""))
    {
      ghost var before := buffer;
      buffer := buffer + " " + name + "=\"";
      buffer := PrintString(value, false, buffer);
      buffer := buffer + "\"";
      assert buffer == before + (" " + (name + ("=" + ("\"" + (Escape(value, false) + ("\"" + ""))))));
    }

    method CloseElement()
      requires Ready() && 0 < depth
      modifies this
      ensures Ready() && !elementJustOpened && firstElement == old(firstElement)
      ensures depth == old(depth) - 1 && stack == old(stack)[..|old(stack)| - 1]
      ensures buffer == old(buffer)
                        + (if old(elementJustOpened) then "/>"
                           else Break(compactMode) + Indent(depth, compactMode)
                                 + "</" + old(stack)[|old(stack)| - 1] + ">")
                        + if depth == 0 then Break(compactMode) else ""
    {
      depth := depth - 1;
      var name := stack[|stack| - 1];
      stack := stack[..|stack| - 1];
      if elementJustOpened {
        buffer := buffer + "/>";
      } else {
        if !compactMode {
          buffer := buffer + "\n";
          PrintSpace(depth);
        }
        buffer := buffer + ("</" + name + ">");
      }
      if depth == 0 && !compactMode { buffer := buffer + "\n"; }
      elementJustOpened := false;
    }

    /** The loop of VisitEnter. */
    method PushAttributes(attrs: seq<Attribute>)
      modifies this`buffer
      ensures buffer == old(buffer) + AttrsText(EscapedAttrs(attrs), "")
    {
      ghost var es := EscapedAttrs(attrs);
      ghost var all := buffer + AttrsText(es, "");
      assert es[0..] == es;
      for i := 0 to |attrs|
        invariant all == buffer + AttrsText(es[i..], "")
      {
        ghost var before := buffer;
        PushAttribute(attrs[i].name, attrs[i].value);
        NextAttr(es, i, before);
      }
      assert es[|attrs|..] == [];
    }

    lemma NextAttr(es: seq<Attribute>, i: nat, before: string)
      requires i < |es|
      ensures before + AttrsText(es[i..], "") == (before + (" " + AttrText(es[i], ""))) + AttrsText(es[i + 1..], "")
    {
      var rest := AttrsText(es[i + 1..], "");
      assert es[i..][0] == es[i] && es[i..][1..] == es[i + 1..];
      assert AttrText(es[i], rest) == AttrText(es[i], "") + rest;
      Fold(" ", AttrText(es[i], ""), rest);
      Fold(before, " " + AttrText(es[i], ""), rest);
    }

    /** Accept: the element, its attributes, its children, and its end. */
    method Visit(e: Elem)
      requires Ready()
      modifies this
      ensures Ready() && !elementJustOpened && !firstElement && depth == old(depth) && stack == old(stack)
      ensures var all := old(Flushed()) + Text(Escaped(e), depth, compactMode, "");
              buffer == if depth == 0 then all + Break(compactMode) else all
      decreases e, 1, 0
    {
      ghost var x, d, c, start := Escaped(e), depth, compactMode, Flushed();
      OpenElement(e.name);
      PushAttributes(e.attrs);
      VisitKids(e, d);
      CloseElement();
      TextCut(x, d, c, start);
    }

    /** What is printed once children k and later are, which is to be all. */
    ghost predicate Ahead(x: Elem, k: nat, d: nat, all: string)
      reads this
    {
      && Ready() && !firstElement && depth == d + 1 && (elementJustOpened <==> k == 0) && k <= |x.kids|
      && all == (if k == 0 then buffer + ">" else buffer) + KidsText(x, k, d + 1, compactMode, "")
    }

    /** The loop over the children; the first of them closes the start tag. */
    method VisitKids(e: Elem, ghost d: nat)
      requires Ready() && depth == d + 1 && elementJustOpened && !firstElement
      modifies this
      ensures Ready() && depth == d + 1 && !firstElement && stack == old(stack)
      ensures elementJustOpened <==> e.kids == []
      ensures buffer == old(buffer) + if e.kids == [] then "" else ">" + KidsText(Escaped(e), 0, d + 1, compactMode, "")
      decreases e, 0, 1
    {
      ghost var kids := KidsText(Escaped(e), 0, d + 1, compactMode, "");
      ghost var all := buffer + ">" + kids;
      Fold(buffer, ">", kids);
      for k := 0 to |e.kids|
        invariant Ahead(Escaped(e), k, d, all) && stack == old(stack) && (k == 0 ==> buffer == old(buffer))
      {
        VisitKid(e, k, d, all);
      }
    }

    method VisitKid(e: Elem, k: nat, ghost d: nat, ghost all: string)
      requires k < |e.kids| && Ahead(Escaped(e), k, d, all)
      modifies this
      ensures Ahead(Escaped(e), k + 1, d, all) && stack == old(stack)
      decreases e, 0, 0
    {
      ghost var x, c := Escaped(e), compactMode;
      ghost var before := if k == 0 then buffer + ">" else buffer;
      KidsCut(x, k, d + 1, c, before);
      assert Flushed() == before + Break(c) && x.kids[k] == Escaped(e.kids[k]);
      Visit(e.kids[k]);
    }

    lemma KidsCut(x: Elem, k: nat, d: nat, c: bool, before: string)
      requires k < |x.kids|
      ensures before + KidsText(x, k, d, c, "")
          == (before + Break(c)) + Text(x.kids[k], d, c, "") + KidsText(x, k + 1, d, c, "")
    {
      var rest := KidsText(x, k + 1, d, c, "");
      TextAppend(x.kids[k], d, c, rest);
      Fold(Break(c), Text(x.kids[k], d, c, ""), rest);
      Fold(before, Break(c), Text(x.kids[k], d, c, "") + rest);
      Fold(before + Break(c), Text(x.kids[k], d, c, ""), rest);
    }

    lemma TextCut(x: Elem, d: nat, c: bool, start: string)
      ensures var tagged := start + Indent(d, c) + "<" + x.name + AttrsText(x.attrs, "");
              start + Text(x, d, c, "")
                == if x.kids == [] then tagged + "/>"
                   else tagged + (">" + KidsText(x, 0, d + 1, c, "")) + (Break(c) + Indent(d, c) + "</" + x.name + ">")
    {
      var close := Closing(x, d, c, "");
      var tagged := start + Indent(d, c) + "<" + x.name + AttrsText(x.attrs, "");
      AttrsAppend(x.attrs, close);
      Grouped(start, Indent(d, c), x.name, AttrsText(x.attrs, ""), close);
      assert start + Text(x, d, c, "") == tagged + close;
      ClosingIs(x, d, c);
      if x.kids != [] {
        Fold(tagged, ">" + KidsText(x, 0, d + 1, c, ""), Break(c) + Indent(d, c) + "</" + x.name + ">");
      }
    }

    lemma ClosingIs(x: Elem, d: nat, c: bool)
      ensures Closing(x, d, c, "")
           == if x.kids == [] then "/>"
              else (">" + KidsText(x, 0, d + 1, c, "")) + (Break(c) + Indent(d, c) + "</" + x.name + ">")
    {
      if x.kids == [] {
        assert "/" + (">" + "") == "/>";
      } else {
        var kids, end := KidsText(x, 0, d + 1, c, ""), EndText(x, d, c, "");
        KidsAppend(x, 0, d + 1, c, end);
        assert end == Break(c) + Indent(d, c) + "</" + x.name + ">";
        Fold(">", kids, end);
      }
    }

    lemma Grouped(a: string, b: string, name: string, attrs: string, close: string)
      ensures a + (b + ("<" + (name + (attrs + close)))) == (a + b + "<" + name + attrs) + close
    {
    }

    /** What is printed once roots i and later are, which is to be all. */
    ghost predicate Before(es: seq<Elem>, i: nat, all: string)
      reads this
    {
      && Ready() && depth == 0 && !elementJustOpened && (firstElement <==> i == 0) && i <= |es|
      && all == (if 0 < i < |es| then buffer + Break(compactMode) else buffer) + DocText(es[i..], compactMode, "")
    }

    /** XMLDocument::Print. */
    method Print(roots: seq<Elem>)
      requires Ready() && depth == 0 && firstElement && !elementJustOpened && buffer == ""
      modifies this
      ensures buffer == DocText(EscapedAll(roots), compactMode, "")
    {
      ghost var es := EscapedAll(roots);
      ghost var all := DocText(es, compactMode, "");
      assert es[0..] == es && "" + all == all;
      for i := 0 to |roots|
        invariant Before(es, i, all)
      {
        PrintRoot(roots, i, all);
      }
      assert es[|roots|..] == [];
    }

    method PrintRoot(roots: seq<Elem>, i: nat, ghost all: string)
      requires i < |roots| && Before(EscapedAll(roots), i, all)
      modifies this
      ensures Before(EscapedAll(roots), i + 1, all)
    {
      RootCut(EscapedAll(roots), i, compactMode, Flushed());
      Visit(roots[i]);
    }

    lemma RootCut(es: seq<Elem>, i: nat, c: bool, before: string)
      requires i < |es|
      ensures var one := before + Text(es[i], 0, c, "") + Break(c);
              before + DocText(es[i..], c, "") == (if i + 1 < |es| then one + Break(c)
                  else one) + DocText(es[i + 1..], c, "")
    {
      var more := if i + 1 < |es| then Break(c) else "";
      var rest := DocText(es[i + 1..], c, "");
      var text := Text(es[i], 0, c, "");
      assert es[i..][0] == es[i] && es[i..][1..] == es[i + 1..] && (|es[i..]| == 1 <==> i + 1 == |es|);
      TextAppend(es[i], 0, c, Break(c) + (more + rest));
      Fold(text, Break(c), more + rest);
      Fold(before, text + Break(c), more + rest);
      Fold(before, text, Break(c));
      Fold(before + text + Break(c), more, rest);
      assert (before + text + Break(c)) + "" == before + text + Break(c);
    }
  }

  // ----- the parser, with a cursor into the buffer -----

  lemma Drop(s: string, p: nat, k: nat)
    requires p + k <= |s|
    ensures s[p..][k..] == s[p + k..] && s[p..][..k] == s[p..p + k]
  {
  }

  method SkipWhiteSpace(s: string, p: nat) returns (q: nat)
    requires p <= |s|
    ensures p <= q <= |s| && s[q..] == SkipWs(s[p..])
  {
    q := p;
    while q < |s| && IsSpace(s[q])
      invariant p <= q <= |s| && SkipWs(s[q..]) == SkipWs(s[p..])
    {
      assert s[q..][1..] == s[q + 1..];
      q := q + 1;
    }
  }

  /** ParseName; the cursor does not move when there is no name. */
  method ParseName(s: string, p: nat) returns (q: nat)
    requires p <= |s|
    ensures p <= q <= |s| && q == p + NameLen(s[p..])
  {
    q := p;
    if p == |s| || !IsNameStart(s[p]) { return; }
    while q < |s| && IsNameChar(s[q])
      invariant p <= q <= |s| && NameRun(s[p..]) == (q - p) + NameRun(s[q..])
    {
      assert s[q..][1..] == s[q + 1..];
      q := q + 1;
    }
  }

  /** ParseText; the cursor is at the end tag, or at the end of the buffer. */
  method FindQuote(s: string, p: nat, quote: char) returns (q: nat)
    requires p <= |s|
    ensures p <= q <= |s| && q == p + FindChar(s[p..], quote)
  {
    q := p;
    while q < |s| && s[q] != quote
      invariant p <= q <= |s| && FindChar(s[p..], quote) == (q - p) + FindChar(s[q..], quote)
    {
      assert s[q..][1..] == s[q + 1..];
      q := q + 1;
    }
  }

  /** From the opening quote to behind the closing one. */
  method ParseQuoted(s: string, p: nat) returns (r: Option<string>, q: nat)
    requires p <= |s|
    ensures q <= |s|
    ensures match r case None => ParseValue(s[p..]) == None
        case Some(v) => ParseValue(s[p..]) == Some((v, s[q..])) && p < q
  {
    if p == |s| || (s[p] != '"' && s[p] != '\'') { return None, p; }
    Drop(s, p, 1);
    var e := FindQuote(s, p + 1, s[p]);
    if e == |s| { return None, p; }
    Drop(s, p, e + 1 - p);
    assert s[p..][1..1 + (e - p - 1)] == s[p + 1..e];
    return Some(s[p + 1..e]), e + 1;
  }

  /** From a name over the '=' to the value. */
  method FindValue(s: string, n: nat) returns (found: bool, q: nat)
    requires n <= |s|
    ensures n <= q <= |s|
    ensures var u := SkipWs(s[n..]);
            if found then u != [] && u[0] == '=' && s[q..] == SkipWs(u[1..]) else u == [] || u[0] != '='
  {
    q := SkipWhiteSpace(s, n);
    if q == |s| || s[q] != '=' { return false, n; }
    Drop(s, q, 1);
    q := SkipWhiteSpace(s, q + 1);
    found := true;
  }

  /** XMLAttribute::ParseDeep. */
  method ParseAttribute(s: string, p: nat) returns (r: Option<Attribute>, q: nat)
    requires p <= |s|
    ensures q <= |s|
    ensures match r case None => ParseAttr(s[p..]) == None
        case Some(a) => ParseAttr(s[p..]) == Some((a, s[q..])) && p < q
  {
    var n := ParseName(s, p);
    if n == p { return None, p; }
    Drop(s, p, n - p);
    var found: bool;
    found, q := FindValue(s, n);
    if !found { return None, p; }
    AttrIs(s[p..], n - p, SkipWs(s[n..]), s[q..]);
    var v;
    v, q := ParseQuoted(s, q);
    if v.None? { return None, p; }
    r := Some(Attribute(s[p..n], v.value));
  }

  lemma AttrIs(t: string, n: nat, u: string, v: string)
    requires n == NameLen(t) && n != 0 && u == SkipWs(t[n..]) && u != [] && u[0] == '=' && v == SkipWs(u[1..])
    ensures ParseAttr(t) == var r := ParseValue(v);
        if r.None? then None else Some((Attribute(t[..n], r.value.0), r.value.1))
  {
  }

  /** XMLElement::Attribute( name ). */
  method FindAttribute(attrs: seq<Attribute>, name: string) returns (found: bool)
    ensures found <==> HasName(attrs, name)
  {
    for i := 0 to |attrs|
      invariant forall k :: 0 <= k < i ==> attrs[k].name != name
    {
      if attrs[i].name == name { return true; }
    }
    return false;
  }

  type AttrsReader = (string, seq<Attribute>) -> Option<(seq<Attribute>, Kind, string)>

  /** A name for ParseAttrs whose definition stays out of the way. */
  ghost predicate IsAttrsOf(h: AttrsReader, ending: bool) {
    forall t: string, a: seq<Attribute> {:trigger ParseAttrs(t, a, ending)} :: h(t, a) == ParseAttrs(t, a, ending)
  }

  /** The four things ParseAttributes can meet after blanks. */
  lemma AttrsAre(h: AttrsReader, t: string, u: string, sofar: seq<Attribute>, ending: bool)
    requires IsAttrsOf(h, ending) && u == SkipWs(t)
    ensures u == [] ==> h(t, sofar) == None
    ensures u != [] && IsNameStart(u[0]) ==>
              h(t, sofar) == match ParseAttr(u)
                             case None => None
                             case Some(a) => if HasName(sofar, a.0.name) then None else h(a.1, sofar + [a.0])
    ensures u != [] && !IsNameStart(u[0]) ==>
              h(t, sofar) == if 2 <= |u| && u[0] == '/' && u[1] == '>' then Some((sofar, Closed, u[2..]))
                             else if u[0] == '>' then Some((sofar, if ending then Ending else Opened, u[1..])) else None
  {
    assert h(t, sofar) == ParseAttrs(t, sofar, ending);
    if u != [] && ParseAttr(u).Some? {
      var a := ParseAttr(u).value;
      assert h(a.1, sofar + [a.0]) == ParseAttrs(a.1, sofar + [a.0], ending);
    }
  }

  /** XMLElement::ParseAttributes. */
  method ParseAttributes(s: string, p: nat, ending: bool,
                         ghost h: AttrsReader) returns (r: Option<(seq<Attribute>, Kind)>, q: nat)
    requires IsAttrsOf(h, ending) && p <= |s|
    ensures q <= |s|
    ensures match r case None => h(s[p..], []) == None
        case Some(a) => h(s[p..], []) == Some((a.0, a.1, s[q..])) && p < q
  {
    var attrs: seq<Attribute> := [];
    q := p;
    while true
      invariant p <= q <= |s| && h(s[p..], []) == h(s[q..], attrs)
      decreases |s| - q
    {
      ghost var at := q;
      q := SkipWhiteSpace(s, q);
      AttrsAre(h, s[at..], s[q..], attrs, ending);
      if q == |s| { return None, p; }
      if IsNameStart(s[q]) {
        var a, next := ParseAttribute(s, q);
        if a.None? { return None, p; }
        var dup := FindAttribute(attrs, a.value.name);
        if dup { return None, p; }
        attrs := attrs + [a.value];
        q := next;
      } else if q + 1 < |s| && s[q] == '/' && s[q + 1] == '>' {
        Drop(s, q, 2);
        return Some((attrs, Closed)), q + 2;
      } else if s[q] == '>' {
        Drop(s, q, 1);
        return Some((attrs, if ending then Ending else Opened)), q + 1;
      } else {
        return None, p;
      }
    }
  }

  /** A name for ParseTag whose definition stays out of the way. */
  ghost predicate IsTagOf(g: string -> Option<Tag>) {
    forall t: string {:trigger ParseTag(t)} :: g(t) == ParseTag(t)
  }

  /** A name and the attributes behind it. */
  function Body(v: string, ending: bool): Option<Tag> {
    var n := NameLen(v);
    if n == 0 then None
    else
      var a := ParseAttrs(v[n..], [], ending);
      if a.None? then None else Some(Tag(v[..n], a.value.0, a.value.1, a.value.2))
  }

  /** A tag is blanks, perhaps a slash, and its body. */
  lemma TagIs(g: string -> Option<Tag>, t: string, u: string, ending: bool, v: string)
    requires IsTagOf(g) && u == SkipWs(t) && ending == (u != [] && u[0] == '/') && v == if ending then u[1..] else u
    ensures g(t) == Body(v, ending)
  {
    assert g(t) == ParseTag(t);
  }

  method ParseBody(s: string, p: nat, ending: bool) returns (r: Option<Tag>, q: nat)
    requires p <= |s|
    ensures q <= |s| && r == Body(s[p..], ending) && (r.Some? ==> r.value.rest == s[q..] && p < q)
  {
    var n := ParseName(s, p);
    if n == p { return None, p; }
    Drop(s, p, n - p);
    ghost var h: AttrsReader := (t: string, a: seq<Attribute>) => ParseAttrs(t, a, ending);
    var a, next := ParseAttributes(s, n, ending, h);
    if a.None? { return None, p; }
    r, q := Some(Tag(s[p..n], a.value.0, a.value.1, s[next..])), next;
  }

  /** XMLElement::ParseDeep up to the children. */
  method ParseElement(s: string, p: nat, ghost g: string -> Option<Tag>) returns (r: Option<Tag>, q: nat)
    requires IsTagOf(g) && p <= |s|
    ensures q <= |s| && r == g(s[p..]) && (r.Some? ==> r.value.rest == s[q..] && p < q)
  {
    q := SkipWhiteSpace(s, p);
    ghost var u := s[q..];
    var ending := q < |s| && s[q] == '/';
    if ending {
      Drop(s, q, 1);
      q := q + 1;
    }
    TagIs(g, s[p..], u, ending, s[q..]);
    r, q := ParseBody(s, q, ending);
  }

  ghost function Joined(kids: seq<Elem>, l: Level): Level {
    if l.Fail? then Fail else Level(kids + l.kids, l.end, l.rest)
  }

  lemma JoinedCons(kids: seq<Elem>, e: Elem, l: Level)
    ensures Joined(kids, Cons(e, l)) == Joined(kids + [e], l)
  {
    if l.Level? { assert kids + ([e] + l.kids) == (kids + [e]) + l.kids; }
  }

  lemma JoinedNone(l: Level)
    ensures Joined([], l) == l
  {
  }

  /** The rest of a level once a tag was read. */
  ghost function Following(parse: string -> Level, tag: Tag): Level {
    match tag.kind
    case Ending => Level([], Some(tag.name), tag.rest)
    case Closed => Cons(Elem(tag.name, tag.attrs, []), parse(tag.rest))
    case Opened =>
      var sub := parse(tag.rest);
      if sub.Fail? || sub.end != Some(tag.name) then Fail
      else Cons(Elem(tag.name, tag.attrs, sub.kids), parse(sub.rest))
  }

  /** What a level starts with decides how it goes on. */
  lemma LevelIs(parse: string -> Level, g: string -> Option<Tag>, t: string, u: string)
    requires IsParse(parse) && IsTagOf(g) && u == SkipWs(t)
    ensures u == [] ==> parse(t) == Level([], None, [])
    ensures u != [] && OtherNode(u) ==> parse(t) == Fail
    ensures u != [] && !OtherNode(u) ==> parse(t) == if g(u[1..]).None? then Fail else Following(parse, g(u[1..]).value)
  {
    assert parse(t) == ParseLevel(t);
    if u != [] && !OtherNode(u) {
      assert g(u[1..]) == ParseTag(u[1..]);
      if g(u[1..]).Some? {
        var tag := g(u[1..]).value;
        assert parse(tag.rest) == ParseLevel(tag.rest);
        if tag.kind == Opened && parse(tag.rest).Level? {
          assert parse(parse(tag.rest).rest) == ParseLevel(parse(tag.rest).rest);
        }
      }
    }
  }

  /** What Identify finds next: the end, something else than an element, or a tag. */
  datatype Found = AtEnd | Other | Broken | ATag(tag: Tag)

  method IdentifyTag(s: string, p: nat, ghost parse: string -> Level,
                     ghost g: string -> Option<Tag>) returns (r: Found, q: nat)
    requires IsParse(parse) && IsTagOf(g) && p <= |s|
    ensures p <= q <= |s|
    ensures match r
            case AtEnd => q == |s| && parse(s[p..]) == Level([], None, [])
            case Other => parse(s[p..]) == Fail
            case Broken => parse(s[p..]) == Fail
            case ATag(tag) => p < q && tag.rest == s[q..] && parse(s[p..]) == Following(parse, tag)
  {
    q := SkipWhiteSpace(s, p);
    LevelIs(parse, g, s[p..], s[q..]);
    if q == |s| { return AtEnd, q; }
    if s[q] != '<' || (q + 1 < |s| && (s[q + 1] == '?' || s[q + 1] == '!')) { return Other, q; }
    Drop(s, q, 1);
    var tag, next := ParseElement(s, q + 1, g);
    if tag.None? { return Broken, q; }
    return ATag(tag.value), next;
  }

  /** XMLNode::ParseDeep: the loop over one level, with the recursion into each element. */
  method ParseDeep(s: string, p: nat, ghost parse: string -> Level,
                   ghost g: string -> Option<Tag>) returns (l: Level, q: nat)
    requires IsParse(parse) && IsTagOf(g) && p <= |s|
    ensures p <= q <= |s| && l == parse(s[p..]) && (l.Level? ==> l.rest == s[q..])
    decreases |s| - p, 0
  {
    var kids: seq<Elem> := [];
    q := p;
    ghost var target := parse(s[p..]);
    JoinedNone(target);
    while true
      invariant p <= q <= |s| && target == Joined(kids, parse(s[q..]))
      decreases |s| - q
    {
      var found, next := IdentifyTag(s, q, parse, g);
      match found
      case AtEnd =>
        assert kids + [] == kids;
        return Level(kids, None, []), next;
      case Other => return Fail, next;
      case Broken => return Fail, next;
      case ATag(tag) =>
        if tag.kind == Ending {
          assert kids + [] == kids;
          return Level(kids, Some(tag.name), s[next..]), next;
        }
        var e, ok: bool;
        e, ok, next := Finish(s, tag, next, parse, g);
        if !ok { return Fail, next; }
        JoinedCons(kids, e, parse(s[next..]));
        kids := kids + [e];
        q := next;
    }
  }

  /** The element of a tag: with its children, when it was opened and its own end tag closes them. */
  method Finish(s: string, tag: Tag, p: nat, ghost parse: string -> Level, ghost g: string -> Option<Tag>)
    returns (e: Elem, ok: bool, q: nat)
    requires IsParse(parse) && IsTagOf(g) && p <= |s| && tag.rest == s[p..] && tag.kind != Ending
    ensures p <= q <= |s| && Following(parse, tag) == if ok then Cons(e, parse(s[q..])) else Fail
    decreases |s| - p, 1
  {
    e, ok, q := Elem(tag.name, tag.attrs, []), true, p;
    if tag.kind == Opened {
      var sub;
      sub, q := ParseDeep(s, p, parse, g);
      if sub.Fail? || sub.end != Some(tag.name) { return e, false, q; }
      e := Elem(tag.name, tag.attrs, sub.kids);
    }
  }

  /** XMLDocument::Parse; None for the error of a document that is empty or blank. */
  method Parse(s: string) returns (l: Option<Level>)
    ensures l.None? <==> SkipWs(s) == []
    ensures l.Some? ==> l.value == ParseLevel(SkipWs(s))
  {
    assert s[0..] == s;
    var p := SkipWhiteSpace(s, 0);
    if p == |s| { return None; }
    ghost var parse: string -> Level := (t: string) => ParseLevel(t);
    ghost var g: string -> Option<Tag> := (t: string) => ParseTag(t);
    var level, q := ParseDeep(s, p, parse, g);
    l := Some(level);
  }

  /** A printed document starts with its first element. */
  lemma DocStarts(es: seq<Elem>, compact: bool)
    ensures var t := DocText(es, compact, ""); (es == [] ==> t == "") && (es != [] ==> t != [] && t[0] == '<')
  {
    if es != [] {
      var rest := Break(compact) + ((if |es| == 1 then "" else Break(compact)) + DocText(es[1..], compact, ""));
      TextStarts(es[0], compact, rest);
    }
  }

  lemma TextStarts(e: Elem, compact: bool, t: string)
    ensures Text(e, 0, compact, t) != [] && Text(e, 0, compact, t)[0] == '<'
  {
    assert Indent(0, compact) == "";
  }

  /** A document printed and parsed: the same elements, and their values when asked for; an empty one is an error. */
  method SaveAndLoad(roots: seq<Elem>, compact: bool, ghost f: Cutter) returns (l: Option<Level>)
    requires IsNext(f) && forall k :: 0 <= k < |roots| ==> Printable(roots[k])
    ensures l.None? <==> roots == []
    ensures l.Some? ==> l.value.Level? && l.value.end == None && |l.value.kids| == |roots|
    ensures l.Some? ==> forall k :: 0 <= k < |roots| ==>
        Readable(f, l.value.kids[k]) && Decoded(f, l.value.kids[k]) == roots[k]
  {
    var printer := new XMLPrinter(compact);
    printer.Print(roots);
    PrintParse(f, roots, compact);
    DocStarts(EscapedAll(roots), compact);
    l := Parse(printer.buffer);
  }
}
