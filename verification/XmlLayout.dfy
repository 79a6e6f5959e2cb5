/**
  Texts no printer wrote: white space wherever XML allows it, single quotes, and
  the characters names may have.
 */
module XmlLayout {
  import opened Names
  import opened XmlTree

  /** Tab, line feed, vertical tab, form feed, carriage return and blank. */
  predicate White(w: string) {
    forall k :: 0 <= k < |w| ==>
      var n := w[k] as int; n == 9 || n == 10 || n == 11 || n == 12 || n == 13 || n == 32
  }

  lemma WhiteIsBlank(w: string)
    ensures White(w) <==> Blank(w)
  {
  }

  lemma SkipWhite(w: string, t: string)
    requires White(w)
    ensures SkipWs(w + t) == SkipWs(t)
  {
    WhiteIsBlank(w);
    SkipMore(w, t);
  }

  /** White space before an element, or before the end of the text, changes nothing. */
  lemma LevelIgnores(w: string, t: string)
    requires White(w)
    ensures ParseLevel(w + t) == ParseLevel(t)
  {
    SkipWhite(w, t);
  }

  /** Nor does it before the name in a tag, before an attribute, or before the end of a tag. */
  lemma TagIgnores(w: string, t: string, sofar: seq<Attribute>, ending: bool)
    requires White(w)
    ensures ParseTag(w + t) == ParseTag(t)
    ensures ParseAttrs(w + t, sofar, ending) == ParseAttrs(t, sofar, ending)
  {
    SkipWhite(w, t);
  }

  /** An attribute with white space around the '=' and either kind of quotes, which the value does not contain. */
  lemma AttrRead(a: Attribute, left: string, right: string, quote: char, t: string)
    requires LegalName(a.name) && White(left) && White(right) && (quote == '"' || quote == '\'')
    requires forall k :: 0 <= k < |a.value| ==> a.value[k] != quote
    ensures ParseAttr(a.name + (left + ("=" + (right + ([quote] + (a.value + ([quote] + t))))))) == Some((a, t))
  {
    var value := [quote] + (a.value + ([quote] + t));
    var after := "=" + (right + value);
    if left != [] { assert White([left[0]]) && !IsNameChar(left[0]); }
    NameAt(a.name, left + after);
    SkipWhite(left, after);
    assert SkipWs(after) == after && after[1..] == right + value;
    SkipWhite(right, value);
    assert SkipWs(value) == value;
    QuoteRead(a.value, quote, t);
  }

  lemma QuoteRead(value: string, quote: char, t: string)
    requires (quote == '"' || quote == '\'') && forall k :: 0 <= k < |value| ==> value[k] != quote
    ensures ParseValue([quote] + (value + ([quote] + t))) == Some((value, t))
  {
    var v := [quote] + (value + ([quote] + t));
    assert v[1..] == value + ([quote] + t);
    QuoteAt(value, quote, t);
    assert v[1..1 + |value|] == value && v[|value| + 2..] == t;
  }

  lemma {:induction false} SkipsWhite(t: string)
    ensures var n := |t| - |SkipWs(t)|; White(t[..n]) && t[n..] == SkipWs(t)
  {
    if t != [] && IsSpace(t[0]) {
      SkipsWhite(t[1..]);
      var n := |t| - |SkipWs(t)|;
      assert t[..n] == [t[0]] + t[1..][..n - 1] && t[n..] == t[1..][n - 1..];
    }
  }

  /** And nothing else is read as an attribute. */
  lemma OnlyAttributes(t: string) returns (left: string, right: string, quote: char)
    requires ParseAttr(t).Some?
    ensures var (a, rest) := ParseAttr(t).value;
            && LegalName(a.name) && White(left) && White(right) && (quote == '"' || quote == '\'')
            && (forall k :: 0 <= k < |a.value| ==> a.value[k] != quote)
            && t == a.name + (left + ("=" + (right + ([quote] + (a.value + ([quote] + rest))))))
  {
    var n, u, v := AttrParts(t);
    var (a, rest) := ParseAttr(t).value;
    NameIsLegal(t);
    SkipsWhite(t[n..]);
    SkipsWhite(u[1..]);
    OnlyValues(v);
    hide ParseAttr, ParseValue, NameLen, SkipWs, LegalName, White;
    left, right, quote := t[n..][..|t| - n - |u|], u[1..][..|u| - 1 - |v|], v[0];
    Glued(t, n, u, v, left, right, [quote] + (a.value + ([quote] + rest)));
  }

  lemma AttrParts(t: string) returns (n: nat, u: string, v: string)
    requires ParseAttr(t).Some?
    ensures var (a, rest) := ParseAttr(t).value;
            && n == NameLen(t) && 0 < n <= |t| && a.name == t[..n] && u == SkipWs(t[n..]) && u != [] && u[0] == '='
            && v == SkipWs(u[1..]) && v != [] && ParseValue(v) == Some((a.value, rest))
  {
    n := NameLen(t);
    u := SkipWs(t[n..]);
    v := SkipWs(u[1..]);
  }

  lemma Glued(t: string, n: nat, u: string, v: string, left: string, right: string, value: string)
    requires n <= |t| && |u| <= |t| - n && u != [] && u[0] == '=' && |v| < |u| && v == value
    requires left == t[n..][..|t| - n - |u|] && t[n..][|t| - n - |u|..] == u
    requires right == u[1..][..|u| - 1 - |v|] && u[1..][|u| - 1 - |v|..] == v
    ensures t == t[..n] + (left + ("=" + (right + value)))
  {
    assert u == "=" + u[1..] && u[1..] == right + v;
    assert t[n..] == left + u && t == t[..n] + t[n..];
  }

  lemma OnlyValues(v: string)
    requires ParseValue(v).Some?
    ensures var (value, rest) := ParseValue(v).value;
            && (v[0] == '"' || v[0] == '\'') && v == [v[0]] + (value + ([v[0]] + rest))
            && forall k :: 0 <= k < |value| ==> value[k] != v[0]
  {
    var e := FindChar(v[1..], v[0]);
    assert v[1..][e] == v[0] && v == [v[0]] + v[1..] && v[1..] == v[1..][..e] + ([v[0]] + v[1..][e + 1..]);
    assert v[1..1 + e] == v[1..][..e] && v[e + 2..] == v[1..][e + 1..];
  }

  /** The characters of names, by their codes: letters, ':', '_', everything past 127; and digits, '-' and '.'. */
  lemma NameCharsAre(c: char)
    ensures var n := c as int;
            && (IsNameStart(c) <==> 65 <= n <= 90 || 97 <= n <= 122 || n == 58 || n == 95 || 128 <= n)
            && (IsNameChar(c) <==> IsNameStart(c) || 48 <= n <= 57 || n == 45 || n == 46)
  {
  }

  // ----- what is not accepted -----

  predicate DifferentNames(attrs: seq<Attribute>) {
    && (forall k :: 0 <= k < |attrs| ==> LegalName(attrs[k].name))
    && (forall i, j :: 0 <= i < j < |attrs| ==> attrs[i].name != attrs[j].name)
  }

  predicate WellNamed(e: Elem) {
    LegalName(e.name) && DifferentNames(e.attrs) && forall k :: 0 <= k < |e.kids| ==> WellNamed(e.kids[k])
  }

  lemma {:induction false} AttrsDiffer(t: string, sofar: seq<Attribute>, ending: bool)
    requires DifferentNames(sofar) && ParseAttrs(t, sofar, ending).Some?
    ensures DifferentNames(ParseAttrs(t, sofar, ending).value.0)
    decreases |t|
  {
    var u := SkipWs(t);
    if IsNameStart(u[0]) {
      var a := ParseAttr(u).value;
      NameIsLegal(u);
      assert !HasName(sofar, a.0.name);
      AttrsDiffer(a.1, sofar + [a.0], ending);
    }
  }

  lemma NameIsLegal(t: string)
    requires NameLen(t) != 0
    ensures LegalName(t[..NameLen(t)])
  {
  }

  lemma TagIsLegal(t: string)
    requires ParseTag(t).Some?
    ensures LegalName(ParseTag(t).value.name) && DifferentNames(ParseTag(t).value.attrs)
  {
    var u := SkipWs(t);
    var ending := u != [] && u[0] == '/';
    var v := if ending then u[1..] else u;
    NameIsLegal(v);
    AttrsDiffer(v[NameLen(v)..], [], ending);
  }

  predicate AllWell(l: Level) { l.Level? ==> forall k :: 0 <= k < |l.kids| ==> WellNamed(l.kids[k]) }

  lemma ConsWell(e: Elem, l: Level)
    requires WellNamed(e) && AllWell(l)
    ensures AllWell(Cons(e, l))
  {
  }

  lemma LevelIs(t: string)
    ensures var u := SkipWs(t);
            ParseLevel(t) == if u == [] then Level([], None, [])
                             else if OtherNode(u) || ParseTag(u[1..]).None? then Fail
                             else AfterTag(ParseTag(u[1..]).value, |t|)
  {
    hide ParseTag;
  }

  /** Whatever text is read: the names of what comes of it are legal, and no element has an attribute twice. */
  lemma {:induction false} ReadIsWellNamed(t: string)
    ensures AllWell(ParseLevel(t))
    decreases |t|
  {
    var u := SkipWs(t);
    LevelIs(t);
    hide ParseLevel, WellNamed, AllWell, SkipWs, ParseTag;
    if u != [] && !OtherNode(u) && ParseTag(u[1..]).Some? {
      var tag := ParseTag(u[1..]).value;
      TagIsLegal(u[1..]);
      ReadIsWellNamed(tag.rest);
      var sub := ParseLevel(tag.rest);
      if tag.kind == Opened && sub.Level? { ReadIsWellNamed(sub.rest); }
      TagWell(tag, |t|);
    } else {
      NothingWell();
    }
  }

  lemma NothingWell()
    ensures AllWell(Fail) && AllWell(Level([], None, []))
  {
  }

  lemma TagWell(tag: Tag, n: nat)
    requires LegalName(tag.name) && DifferentNames(tag.attrs) && |tag.rest| < n && AllWell(ParseLevel(tag.rest))
    requires tag.kind == Opened && ParseLevel(tag.rest).Level? ==> AllWell(ParseLevel(ParseLevel(tag.rest).rest))
    ensures AllWell(AfterTag(tag, n))
  {
    hide ParseLevel;
    var sub := ParseLevel(tag.rest);
    if tag.kind == Closed { ConsWell(Elem(tag.name, tag.attrs, []), sub); }
    if tag.kind == Opened && sub.Level? && sub.end == Some(tag.name) {
      ConsWell(Elem(tag.name, tag.attrs, sub.kids), ParseLevel(sub.rest));
    }
  }

  /** An element closed under another name, or not at all, is an error. */
  lemma Mismatched(name: string, other: string, t: string)
    requires LegalName(name) && LegalName(other) && name != other
    ensures ParseLevel("<" + (name + (">" + ("<" + ("/" + (other + (">" + t))))))) == Fail
    ensures ParseLevel("<" + (name + ">")) == Fail
  {
    var end := "/" + (other + (">" + t));
    EndTagRead(other, t);
    Enclosing(name, "<" + end);
    assert ("<" + end)[1..] == end && SkipWs("<" + end) == "<" + end;
    assert ParseLevel("<" + end) == Level([], Some(other), t);
    Enclosing(name, "");
    assert ">" + "" == ">";
  }

  lemma Enclosing(name: string, t: string)
    requires LegalName(name)
    ensures var sub := ParseLevel(t);
            sub.Fail? || sub.end != Some(name) ==> ParseLevel("<" + (name + (">" + t))) == Fail
  {
    var body := name + (">" + t);
    assert AttrsText([], ">" + t) == ">" + t && (">" + t)[1..] == t;
    TagRead(name, [], ">" + t);
    assert body[0] == name[0] && ("<" + body)[1..] == body && SkipWs("<" + body) == "<" + body;
  }

  // ----- what the printer writes, to the letter -----

  lemma LeafText(name: string, depth: nat, compact: bool, t: string)
    ensures Text(Elem(name, [], []), depth, compact, t)
         == Indent(depth, compact) + ("<" + (name + ("/" + (">" + t))))
  {
  }

  /** An element with an attribute and two empty elements in it, each on its line; compact, all on one. */
  lemma PrintedPair(e: Elem, compact: bool)
    requires |e.attrs| == 1 && |e.kids| == 2
    requires e.kids[0] == Elem(e.kids[0].name, [], []) && e.kids[1] == Elem(e.kids[1].name, [], [])
    ensures var line := if compact then "" else "\n";
            var next := if compact then "" else "\n    ";
            var last := line + ("<" + ("/" + (e.name + (">" + line))));
            var second := next + ("<" + (e.kids[1].name + ("/" + (">" + last))));
            var first := next + ("<" + (e.kids[0].name + ("/" + (">" + second))));
            DocText([e], compact, "")
              == "<" + (e.name
                 + (" " + (e.attrs[0].name + ("=" + ("\"" + (e.attrs[0].value + ("\"" + (">" + first))))))))
  {
    var line := Break(compact);
    var inner := Indent(1, compact);
    assert Spaces(1) == "    " + Spaces(0) == "    ";
    assert [e][1..] == [] && line + ("" + DocText([], compact, "")) == line;
    assert DocText([e], compact, "") == Text(e, 0, compact, line);
    var last := EndText(e, 0, compact, line);
    assert Indent(0, compact) == "" && last == line + ("<" + ("/" + (e.name + (">" + line))));
    LeafText(e.kids[1].name, 1, compact, last);
    var second := KidsText(e, 1, 1, compact, last);
    assert KidsText(e, 2, 1, compact, last) == last;
    assert second == line + (inner + ("<" + (e.kids[1].name + ("/" + (">" + last)))));
    LeafText(e.kids[0].name, 1, compact, second);
    var first := KidsText(e, 0, 1, compact, last);
    assert first == line + (inner + ("<" + (e.kids[0].name + ("/" + (">" + second)))));
    LineThen(compact, "<" + (e.kids[1].name + ("/" + (">" + last))));
    LineThen(compact, "<" + (e.kids[0].name + ("/" + (">" + second))));
    assert e.attrs[1..] == [] && AttrsText([], ">" + first) == ">" + first;
    assert Closing(e, 0, compact, line) == ">" + first;
    assert AttrsText(e.attrs, ">" + first) == " " + AttrText(e.attrs[0], ">" + first);
  }

  lemma LineThen(compact: bool, t: string)
    ensures Break(compact) + (Indent(1, compact) + t) == (if compact then "" else "\n    ") + t
  {
    assert Spaces(1) == "    " + Spaces(0) == "    ";
  }
}
