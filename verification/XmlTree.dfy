/**
  Elements and attributes as they stand in the text, with the values still
  escaped: what is written for a tree, what the parser reads, and that reading
  what was written gives the tree back.
 */
module XmlTree {
  import opened Names

  datatype Attribute = Attribute(name: string, value: string)

  datatype Elem = Elem(name: string, attrs: seq<Attribute>, kids: seq<Elem>)

  // ----- character classes -----

  /** isspace, below 128. */
  predicate IsSpace(c: char) { c == ' ' || '\t' <= c <= '\r' }

  predicate IsNameStart(c: char) {
    'a' <= c <= 'z' || 'A' <= c <= 'Z' || c == ':' || c == '_' || c as nat >= 128
  }

  predicate IsNameChar(c: char) { IsNameStart(c) || '0' <= c <= '9' || c == '.' || c == '-' }

  predicate LegalName(s: string) {
    s != [] && IsNameStart(s[0]) && forall k :: 0 <= k < |s| ==> IsNameChar(s[k])
  }

  predicate NoQuote(s: string) { forall k :: 0 <= k < |s| ==> s[k] != '"' }

  predicate LegalAttrs(attrs: seq<Attribute>) {
    && (forall k :: 0 <= k < |attrs| ==> LegalName(attrs[k].name) && NoQuote(attrs[k].value))
    && (forall i, j :: 0 <= i < j < |attrs| ==> attrs[i].name != attrs[j].name)
  }

  /** Names as XML wants them, attribute names distinct, and values that end at their closing quote. */
  predicate Legal(e: Elem) {
    LegalName(e.name) && LegalAttrs(e.attrs) && forall k :: 0 <= k < |e.kids| ==> Legal(e.kids[k])
  }

  // ----- printing -----

  function Spaces(n: nat): string { if n == 0 then "" else "    " + Spaces(n - 1) }

  function Indent(depth: nat, compact: bool): string { if compact then "" else Spaces(depth) }

  function Break(compact: bool): string { if compact then "" else "\n" }

  // Each text is given with what follows it.

  function AttrsText(attrs: seq<Attribute>, t: string): string {
    if attrs == [] then t else " " + AttrText(attrs[0], AttrsText(attrs[1..], t))
  }

  function AttrText(a: Attribute, t: string): string { a.name + ("=" + ("\"" + (a.value + ("\"" + t)))) }

  /** The element on its line, and its children on theirs. */
  function Text(e: Elem, depth: nat, compact: bool, t: string): string
    decreases e, 1, 0
  {
    Indent(depth, compact) + ("<" + (e.name + AttrsText(e.attrs, Closing(e, depth, compact, t))))
  }

  function Closing(e: Elem, depth: nat, compact: bool, t: string): string
    decreases e, 0, |e.kids| + 1
  {
    if e.kids == [] then "/" + (">" + t) else ">" + KidsText(e, 0, depth + 1, compact, EndText(e, depth, compact, t))
  }

  function EndText(e: Elem, depth: nat, compact: bool, t: string): string {
    Break(compact) + (Indent(depth, compact) + ("<" + ("/" + (e.name + (">" + t)))))
  }

  /** Children k and later. */
  function KidsText(e: Elem, k: nat, depth: nat, compact: bool, t: string): string
    requires k <= |e.kids|
    decreases e, 0, |e.kids| - k
  {
    if k == |e.kids| then t else Break(compact) + Text(e.kids[k], depth, compact, KidsText(e, k + 1, depth, compact, t))
  }

  /** A document: every root element on lines of its own. */
  function DocText(roots: seq<Elem>, compact: bool, t: string): string {
    if roots == [] then t
    else
      Text(roots[0], 0, compact,
           Break(compact) + ((if |roots| == 1 then "" else Break(compact)) + DocText(roots[1..], compact, t)))
  }

  // ----- parsing: the rest of the buffer in, what was read and the new rest out -----

  function SkipWs(t: string): (r: string)
    ensures |r| <= |t| && (r != [] ==> !IsSpace(r[0]))
  {
    if t != [] && IsSpace(t[0]) then SkipWs(t[1..]) else t
  }

  /** The characters a name goes on for. */
  function NameRun(t: string): (n: nat)
    ensures n <= |t| && (n < |t| ==> !IsNameChar(t[n])) && forall k :: 0 <= k < n ==> IsNameChar(t[k])
  {
    if t == [] || !IsNameChar(t[0]) then 0 else 1 + NameRun(t[1..])
  }

  /** ParseName; 0 when there is no name. */
  function NameLen(t: string): (n: nat)
    ensures n <= |t|
  {
    if t == [] || !IsNameStart(t[0]) then 0 else NameRun(t)
  }

  function FindChar(t: string, c: char): (n: nat)
    ensures n <= |t| && (n < |t| ==> t[n] == c) && forall k :: 0 <= k < n ==> t[k] != c
  {
    if t == [] || t[0] == c then 0 else 1 + FindChar(t[1..], c)
  }

  /** From the opening quote on; the value stays as it is until it is asked for. */
  function ParseValue(v: string): (r: Option<(string, string)>)
    ensures r.Some? ==> |r.value.1| < |v|
  {
    if v == [] || (v[0] != '"' && v[0] != '\'') then None
    else
      var e := FindChar(v[1..], v[0]);
      if e == |v| - 1 then None else Some((v[1..1 + e], v[e + 2..]))
  }

  /** XMLAttribute::ParseDeep. */
  function ParseAttr(t: string): (r: Option<(Attribute, string)>)
    ensures r.Some? ==> |r.value.1| < |t|
  {
    var n := NameLen(t);
    var u := SkipWs(t[n..]);
    if n == 0 || u == [] || u[0] != '=' then None
    else
      var v := ParseValue(SkipWs(u[1..]));
      if v.None? then None else Some((Attribute(t[..n], v.value.0), v.value.1))
  }

  /** How a tag ends: <a>, <a/> or </a>. */
  datatype Kind = Opened | Closed | Ending

  datatype Tag = Tag(name: string, attrs: seq<Attribute>, kind: Kind, rest: string)

  predicate HasName(attrs: seq<Attribute>, name: string) {
    exists k :: 0 <= k < |attrs| && attrs[k].name == name
  }

  /** ParseAttributes, with the attributes read so far. */
  function ParseAttrs(t: string, sofar: seq<Attribute>, ending: bool): (r: Option<(seq<Attribute>, Kind, string)>)
    ensures r.Some? ==> |r.value.2| < |t|
    decreases |t|
  {
    var u := SkipWs(t);
    if u == [] then None
    else if IsNameStart(u[0]) then
      var a := ParseAttr(u);
      if a.None? || HasName(sofar, a.value.0.name) then None
      else ParseAttrs(a.value.1, sofar + [a.value.0], ending)
    else if 2 <= |u| && u[0] == '/' && u[1] == '>' then Some((sofar, Closed, u[2..]))
    else if u[0] == '>' then Some((sofar, if ending then Ending else Opened, u[1..]))
    else None
  }

  /** XMLElement::ParseDeep up to the children; the '<' is gone. */
  function ParseTag(t: string): (r: Option<Tag>)
    ensures r.Some? ==> |r.value.rest| < |t|
  {
    var u := SkipWs(t);
    var ending := u != [] && u[0] == '/';
    var v := if ending then u[1..] else u;
    var n := NameLen(v);
    if n == 0 then None
    else
      var r := ParseAttrs(v[n..], [], ending);
      if r.None? then None else Some(Tag(v[..n], r.value.0, r.value.1, r.value.2))
  }

  /** One level of nodes: its elements, and the end tag that closed it, or none at the end of the buffer. */
  datatype Level = Fail | Level(kids: seq<Elem>, end: Option<string>, rest: string)

  function Cons(e: Elem, l: Level): Level {
    if l.Fail? then Fail else Level([e] + l.kids, l.end, l.rest)
  }

  /** What XMLNode::ParseDeep does with one element it identified. */
  predicate OtherNode(u: string)
    requires u != []
  {
    u[0] != '<' || (2 <= |u| && (u[1] == '?' || u[1] == '!'))
  }

  /**
    XMLNode::ParseDeep. A child reads its parent's end tag and hands it back; a
    level that meets anything but an element is outside this model.
   */
  function ParseLevel(t: string): (r: Level)
    ensures r.Level? ==> |r.rest| <= |t|
    decreases |t|
  {
    var u := SkipWs(t);
    if u == [] then Level([], None, [])
    else if OtherNode(u) then Fail
    else
      var tag := ParseTag(u[1..]);
      if tag.None? then Fail
      else if tag.value.kind == Ending then Level([], Some(tag.value.name), tag.value.rest)
      else if tag.value.kind == Closed then
        Cons(Elem(tag.value.name, tag.value.attrs, []), ParseLevel(tag.value.rest))
      else
        var sub := ParseLevel(tag.value.rest);
        if sub.Fail? || sub.end != Some(tag.value.name) then Fail
        else Cons(Elem(tag.value.name, tag.value.attrs, sub.kids), ParseLevel(sub.rest))
  }

  // ----- small steps -----

  predicate Blank(w: string) { forall k :: 0 <= k < |w| ==> IsSpace(w[k]) }

  lemma {:induction false} SkipBlank(w: string, t: string)
    requires Blank(w) && (t != [] ==> !IsSpace(t[0]))
    ensures SkipWs(w + t) == t
  {
    if w == [] {
      assert w + t == t;
    } else {
      assert (w + t)[1..] == w[1..] + t;
      SkipBlank(w[1..], t);
    }
  }

  lemma SkipTwo(a: string, b: string, t: string)
    requires Blank(a) && Blank(b) && (t != [] ==> !IsSpace(t[0]))
    ensures SkipWs(a + (b + t)) == t
  {
    assert a + (b + t) == (a + b) + t;
    SkipBlank(a + b, t);
  }

  lemma {:induction false} SpacesBlank(n: nat)
    ensures Blank(Spaces(n))
  {
    if n != 0 { SpacesBlank(n - 1); }
  }

  lemma LineBlank(depth: nat, compact: bool)
    ensures Blank(Indent(depth, compact)) && Blank(Break(compact))
  {
    SpacesBlank(depth);
  }

  lemma {:induction false} NameRead(s: string, t: string)
    requires (forall k :: 0 <= k < |s| ==> IsNameChar(s[k])) && (t != [] ==> !IsNameChar(t[0]))
    ensures NameRun(s + t) == |s|
  {
    if s == [] {
      assert s + t == t;
    } else {
      assert (s + t)[1..] == s[1..] + t;
      NameRead(s[1..], t);
    }
  }

  lemma NameAt(s: string, t: string)
    requires LegalName(s) && (t != [] ==> !IsNameChar(t[0]))
    ensures NameLen(s + t) == |s| && (s + t)[..|s|] == s && (s + t)[|s|..] == t
  {
    NameRead(s, t);
  }

  lemma {:induction false} QuoteAt(s: string, c: char, t: string)
    requires forall k :: 0 <= k < |s| ==> s[k] != c
    ensures FindChar(s + ([c] + t), c) == |s|
  {
    var all := s + ([c] + t);
    if s == [] {
      assert all[0] == c;
    } else {
      assert all[1..] == s[1..] + ([c] + t);
      QuoteAt(s[1..], c, t);
    }
  }

  // ----- attributes -----

  lemma ValueRead(value: string, t: string)
    requires NoQuote(value)
    ensures ParseValue("\"" + (value + ("\"" + t))) == Some((value, t))
  {
    var v := "\"" + (value + ("\"" + t));
    assert v[1..] == value + ("\"" + t);
    QuoteAt(value, '"', t);
    assert v[1..1 + |value|] == value && v[|value| + 2..] == t;
  }

  /** One printed attribute is read back; t is what follows its closing quote. */
  lemma AttrRead(a: Attribute, t: string)
    requires LegalName(a.name) && NoQuote(a.value)
    ensures ParseAttr(AttrText(a, t)) == Some((a, t))
  {
    var v := "\"" + (a.value + ("\"" + t));
    NameAt(a.name, "=" + v);
    assert ("=" + v)[1..] == v && SkipWs("=" + v) == "=" + v && SkipWs(v) == v;
    ValueRead(a.value, t);
  }

  /** A blank, an attribute that is not there yet, and the rest. */
  lemma AttrsStep(x: string, a: Attribute, rest: string, sofar: seq<Attribute>, ending: bool)
    requires x != [] && IsNameStart(x[0]) && ParseAttr(x) == Some((a, rest)) && !HasName(sofar, a.name)
    ensures ParseAttrs(" " + x, sofar, ending) == ParseAttrs(rest, sofar + [a], ending)
  {
    SkipBlank(" ", x);
  }

  /** What may follow the attributes of a tag. */
  predicate TagEnd(t: string) {
    t != [] && (t[0] == '>' || (2 <= |t| && t[0] == '/' && t[1] == '>'))
  }

  lemma AttrsDone(t: string, sofar: seq<Attribute>)
    requires TagEnd(t)
    ensures ParseAttrs(t, sofar, false)
         == Some((sofar, if t[0] == '>' then Opened else Closed, if t[0] == '>' then t[1..] else t[2..]))
  {
    assert SkipWs(t) == t;
  }

  lemma {:induction false} AttrsRead(attrs: seq<Attribute>, k: nat, t: string)
    requires LegalAttrs(attrs) && k <= |attrs| && TagEnd(t)
    ensures ParseAttrs(AttrsText(attrs[k..], t), attrs[..k], false)
         == Some((attrs, if t[0] == '>' then Opened else Closed, if t[0] == '>' then t[1..] else t[2..]))
    decreases |attrs| - k
  {
    if k == |attrs| {
      assert attrs[k..] == [] && attrs[..k] == attrs;
      AttrsDone(t, attrs);
    } else {
      AttrsOne(attrs, k, t);
      AttrsRead(attrs, k + 1, t);
    }
  }

  lemma AttrsOne(attrs: seq<Attribute>, k: nat, t: string)
    requires LegalAttrs(attrs) && k < |attrs|
    ensures ParseAttrs(AttrsText(attrs[k..], t), attrs[..k], false)
         == ParseAttrs(AttrsText(attrs[k + 1..], t), attrs[..k + 1], false)
  {
    var a, rest := attrs[k], AttrsText(attrs[k + 1..], t);
    AttrAt(attrs, k, t);
    UpTo(attrs, k);
    hide *;
    AttrsStep(AttrText(a, rest), a, rest, attrs[..k], false);
  }

  lemma UpTo<T>(s: seq<T>, k: nat)
    requires k < |s|
    ensures s[..k + 1] == s[..k] + [s[k]]
  {
  }

  lemma AttrAt(attrs: seq<Attribute>, k: nat, t: string)
    requires LegalAttrs(attrs) && k < |attrs|
    ensures var x := AttrText(attrs[k], AttrsText(attrs[k + 1..], t));
            && AttrsText(attrs[k..], t) == " " + x && !HasName(attrs[..k], attrs[k].name)
            && x != [] && IsNameStart(x[0]) && ParseAttr(x) == Some((attrs[k], AttrsText(attrs[k + 1..], t)))
  {
    hide AttrText, LegalName, NoQuote, ParseAttr;
    assert attrs[k..][0] == attrs[k] && attrs[k..][1..] == attrs[k + 1..];
    AttrRead(attrs[k], AttrsText(attrs[k + 1..], t));
    StartsName(attrs[k], AttrsText(attrs[k + 1..], t));
  }

  lemma StartsName(a: Attribute, t: string)
    requires LegalName(a.name)
    ensures AttrText(a, t) != [] && IsNameStart(AttrText(a, t)[0])
  {
    assert AttrText(a, t)[0] == a.name[0];
  }

  /** A printed start tag is read back, whatever follows it. */
  lemma TagRead(name: string, attrs: seq<Attribute>, t: string)
    requires LegalName(name) && LegalAttrs(attrs) && TagEnd(t)
    ensures ParseTag(name + AttrsText(attrs, t))
         == Some(Tag(name, attrs, if t[0] == '>' then Opened else Closed, if t[0] == '>' then t[1..] else t[2..]))
  {
    var tail := AttrsText(attrs, t);
    assert tail != [] && tail[0] == if attrs == [] then t[0] else ' ';
    NameAt(name, tail);
    assert (name + tail)[0] == name[0] && SkipWs(name + tail) == name + tail;
    assert attrs[0..] == attrs && attrs[..0] == [];
    AttrsRead(attrs, 0, t);
  }

  lemma EndTagRead(name: string, t: string)
    requires LegalName(name)
    ensures ParseTag("/" + (name + (">" + t))) == Some(Tag(name, [], Ending, t))
  {
    var all := "/" + (name + (">" + t));
    assert all[1..] == name + (">" + t) && SkipWs(all) == all;
    NameAt(name, ">" + t);
    assert (">" + t)[1..] == t && SkipWs(">" + t) == ">" + t;
  }

  // ----- the round trip -----

  /** White space, a tag, and the rest: what the level does with it. */
  lemma LevelStep(v: string, w: string, body: string, tag: Tag)
    requires Blank(v) && Blank(w) && body != [] && body[0] != '?' && body[0] != '!'
    requires ParseTag(body) == Some(tag)
    ensures ParseLevel(v + (w + ("<" + body))) == AfterTag(tag, |v + (w + ("<" + body))|)
  {
    SkipTwo(v, w, "<" + body);
    assert ("<" + body)[1..] == body;
  }

  /** The rest of a level once a tag was read. */
  function AfterTag(tag: Tag, n: nat): Level
    requires |tag.rest| < n
  {
    match tag.kind
    case Ending => Level([], Some(tag.name), tag.rest)
    case Closed => Cons(Elem(tag.name, tag.attrs, []), ParseLevel(tag.rest))
    case Opened =>
      var sub := ParseLevel(tag.rest);
      if sub.Fail? || sub.end != Some(tag.name) then Fail
      else Cons(Elem(tag.name, tag.attrs, sub.kids), ParseLevel(sub.rest))
  }

  /** A name for ParseLevel whose definition stays out of the way. */
  ghost predicate IsParse(parse: string -> Level) {
    forall t: string {:trigger ParseLevel(t)} :: parse(t) == ParseLevel(t)
  }

  /** A printed element is the next child; parsing goes on with what follows it. */
  lemma {:induction false} ElementRead(parse: string -> Level, e: Elem, depth: nat, compact: bool, v: string, t: string)
    requires IsParse(parse) && Legal(e) && Blank(v)
    ensures parse(v + Text(e, depth, compact, t)) == Cons(e, parse(t))
    decreases e, 1, 0
  {
    if e.kids == [] {
      LeafRead(parse, e, depth, compact, v, t);
    } else {
      KidsRead(parse, e, 0, depth, compact, t);
      assert e.kids[0..] == e.kids;
      NestRead(parse, e, depth, compact, v, t);
    }
  }

  lemma LeafRead(parse: string -> Level, e: Elem, depth: nat, compact: bool, v: string, t: string)
    requires IsParse(parse) && Legal(e) && Blank(v) && e.kids == []
    ensures parse(v + Text(e, depth, compact, t)) == Cons(e, parse(t))
  {
    var close := Closing(e, depth, compact, t);
    var body := e.name + AttrsText(e.attrs, close);
    assert body[0] == e.name[0] && close[2..] == t;
    LineBlank(depth, compact);
    TagRead(e.name, e.attrs, close);
    LevelStep(v, Indent(depth, compact), body, Tag(e.name, e.attrs, Closed, t));
    assert parse(t) == ParseLevel(t);
    assert parse(v + Text(e, depth, compact, t)) == ParseLevel(v + Text(e, depth, compact, t));
  }

  lemma NestRead(parse: string -> Level, e: Elem, depth: nat, compact: bool, v: string, t: string)
    requires IsParse(parse) && Legal(e) && Blank(v) && e.kids != []
    requires parse(KidsText(e, 0, depth + 1, compact, EndText(e, depth, compact, t))) == Level(e.kids, Some(e.name), t)
    ensures parse(v + Text(e, depth, compact, t)) == Cons(e, parse(t))
  {
    var close := Closing(e, depth, compact, t);
    var inner := KidsText(e, 0, depth + 1, compact, EndText(e, depth, compact, t));
    var body := e.name + AttrsText(e.attrs, close);
    assert body[0] == e.name[0] && close[1..] == inner;
    LineBlank(depth, compact);
    TagRead(e.name, e.attrs, close);
    LevelStep(v, Indent(depth, compact), body, Tag(e.name, e.attrs, Opened, inner));
    assert parse(inner) == ParseLevel(inner) && parse(t) == ParseLevel(t);
    assert parse(v + Text(e, depth, compact, t)) == ParseLevel(v + Text(e, depth, compact, t));
  }

  /** The end tag behind the children of an element is handed back. */
  lemma EndRead(parse: string -> Level, e: Elem, depth: nat, compact: bool, t: string)
    requires IsParse(parse) && Legal(e)
    ensures parse(EndText(e, depth, compact, t)) == Level([], Some(e.name), t)
  {
    var body := "/" + (e.name + (">" + t));
    LineBlank(depth, compact);
    EndTagRead(e.name, t);
    LevelStep(Break(compact), Indent(depth, compact), body, Tag(e.name, [], Ending, t));
    assert parse(EndText(e, depth, compact, t)) == ParseLevel(EndText(e, depth, compact, t));
  }

  /** Printed children are read one after the other, up to their parent's end tag. */
  lemma {:induction false} KidsRead(parse: string -> Level, e: Elem, k: nat, depth: nat, compact: bool, t: string)
    requires IsParse(parse) && Legal(e) && k <= |e.kids|
    ensures parse(KidsText(e, k, depth + 1, compact, EndText(e, depth, compact, t)))
        == Level(e.kids[k..], Some(e.name), t)
    decreases e, 0, |e.kids| - k
  {
    var tail := EndText(e, depth, compact, t);
    if k == |e.kids| {
      EndRead(parse, e, depth, compact, t);
      assert e.kids[k..] == [];
    } else {
      var rest := KidsText(e, k + 1, depth + 1, compact, tail);
      LineBlank(depth, compact);
      ElementRead(parse, e.kids[k], depth + 1, compact, Break(compact), rest);
      KidsRead(parse, e, k + 1, depth, compact, t);
      FirstAndRest(e.kids, k);
    }
  }

  lemma FirstAndRest<T>(s: seq<T>, k: nat)
    requires k < |s|
    ensures [s[k]] + s[k + 1..] == s[k..]
  {
  }

  /** Blanks before an element make no difference. */
  lemma BlanksSkipped(parse: string -> Level, a: string, b: string, t: string)
    requires IsParse(parse) && Blank(a) && Blank(b)
    ensures parse(a + (b + t)) == parse(t)
  {
    SkipMore(a + b, t);
    assert a + (b + t) == (a + b) + t;
    assert parse(t) == ParseLevel(t) && parse(a + (b + t)) == ParseLevel(a + (b + t));
  }

  lemma {:induction false} SkipMore(w: string, t: string)
    requires Blank(w)
    ensures SkipWs(w + t) == SkipWs(t)
  {
    if w == [] {
      assert w + t == t;
    } else {
      assert (w + t)[1..] == w[1..] + t;
      SkipMore(w[1..], t);
    }
  }

  lemma {:induction false} RootsRead(parse: string -> Level, roots: seq<Elem>, compact: bool)
    requires IsParse(parse) && forall k :: 0 <= k < |roots| ==> Legal(roots[k])
    ensures parse(DocText(roots, compact, "")) == Level(roots, None, [])
  {
    if roots == [] {
      assert parse("") == ParseLevel("");
    } else {
      LineBlank(0, compact);
      var more := if |roots| == 1 then "" else Break(compact);
      var rest := DocText(roots[1..], compact, "");
      var doc := Text(roots[0], 0, compact, Break(compact) + (more + rest));
      assert "" + doc == doc;
      ElementRead(parse, roots[0], 0, compact, "", Break(compact) + (more + rest));
      BlanksSkipped(parse, Break(compact), more, rest);
      RootsRead(parse, roots[1..], compact);
      FirstAndRest(roots, 0);
      assert roots[0..] == roots;
    }
  }

  /** Parsing a printed document gives its elements back, in compact and in indented form. */
  lemma DocRead(roots: seq<Elem>, compact: bool)
    requires forall k :: 0 <= k < |roots| ==> Legal(roots[k])
    ensures ParseLevel(DocText(roots, compact, "")) == Level(roots, None, [])
  {
    var parse: string -> Level := (t: string) => ParseLevel(t);
    RootsRead(parse, roots, compact);
  }
}
