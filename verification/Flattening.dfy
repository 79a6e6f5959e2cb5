/**
  pwrgen: a hardware description becomes a tree of objects, the tree a flat list
  of dotted names, and the configuration finds its way around in that list.
 */
module Flattening {
  import opened Names
  import opened RouteFile

  datatype Obj = Obj(name: string, index: nat, kids: seq<Obj>)

  /** One obj element of the flat file: its name and the names of its child elements. */
  datatype Entry = Entry(name: string, children: seq<string>)

  /** snprintf into a buffer of 256 characters. */
  const Room: nat := 255

  function Cut(s: string): (r: string)
    ensures r <= s && |r| <= 255 && (|s| <= 255 ==> r == s) && (255 < |s| ==> |r| == 255)
  {
    if |s| <= Room then s else s[..Room]
  }

  function Tag(o: Obj): string { Tagged(o.name, o.index) }

  function Full(prefix: string, o: Obj): string { prefix + "." + Tag(o) }

  function Labels(kids: seq<Obj>): (r: seq<string>)
    ensures |r| == |kids|
  {
    seq(|kids|, i requires 0 <= i < |kids| => Cut(Tag(kids[i])))
  }

  // ----- flatten -----

  function Flat(prefix: string, kids: seq<Obj>): seq<Entry>
    decreases kids
  {
    if kids == [] then []
    else
      var name := Cut(Full(prefix, kids[0]));
      [Entry(name, Labels(kids[0].kids))] + Flat(name, kids[0].kids) + Flat(prefix, kids[1..])
  }

  function Whole(kids: seq<Obj>): seq<Entry> { [Entry("plat", Labels(kids))] + Flat("plat", kids) }

  /** The children leave for the end of the list one by one, each followed by what is below it. */
  method Flatten(prefix: string, kids: seq<Obj>, objs: seq<Entry>) returns (after: seq<Entry>, children: seq<string>)
    ensures after == objs + Flat(prefix, kids) && children == Labels(kids)
    decreases kids
  {
    hide Flat;
    after, children := objs, [];
    var i: nat := 0;
    assert kids[0..] == kids;
    while i < |kids|
      invariant i <= |kids| && children == Labels(kids)[..i]
      invariant after + Flat(prefix, kids[i..]) == objs + Flat(prefix, kids)
    {
      var child := kids[i];
      children := children + [Cut(Tag(child))];
      var name := Cut(Full(prefix, child));
      ghost var was := after;
      var at := |after|;
      var below;
      after, below := Flatten(name, child.kids, after + [Entry(name, [])]);
      after := after[at := Entry(name, below)];
      Regroup(was, prefix, kids, i);
      assert after == was + [Entry(name, below)] + Flat(name, child.kids);
      i := i + 1;
    }
    assert kids[i..] == [];
    NoneFlat(prefix);
  }

  lemma NoneFlat(prefix: string)
    ensures Flat(prefix, []) == []
  {
  }

  lemma Regroup(before: seq<Entry>, prefix: string, kids: seq<Obj>, i: nat)
    requires i < |kids|
    ensures var name := Cut(Full(prefix, kids[i]));
            before + Flat(prefix, kids[i..]) ==
              before + [Entry(name, Labels(kids[i].kids))] + Flat(name, kids[i].kids) + Flat(prefix, kids[i + 1..])
  {
    assert kids[i..][0] == kids[i] && kids[i..][1..] == kids[i + 1..];
  }

  // ----- XmlConfig -----

  function Find(objs: seq<Entry>, name: string): (r: Option<Entry>)
    ensures r.Some? <==> exists e :: e in objs && e.name == name
    ensures r.Some? ==> r.value in objs && r.value.name == name
  {
    if objs == [] then None else if objs[0].name == name then Some(objs[0]) else Find(objs[1..], name)
  }

  method FindObject(objs: seq<Entry>, name: string) returns (r: Option<Entry>)
    ensures r == Find(objs, name)
  {
    var i: nat := 0;
    while i < |objs|
      invariant i <= |objs| && Find(objs, name) == Find(objs[i..], name)
    {
      if objs[i].name == name { return Some(objs[i]); }
      i := i + 1;
    }
    return None;
  }

  function ChildrenOf(e: Entry): (r: seq<string>)
    ensures |r| == |e.children|
  {
    seq(|e.children|, i requires 0 <= i < |e.children| => e.name + "." + e.children[i])
  }

  /** No such object fails the assertion. */
  method FindChildren(objs: seq<Entry>, name: string) returns (r: Option<seq<string>>)
    ensures r == match Find(objs, name) case None => None case Some(e) => Some(ChildrenOf(e))
  {
    var obj := FindObject(objs, name);
    if obj.None? { return None; }
    var ret: seq<string> := [];
    for i := 0 to |obj.value.children|
      invariant ret == ChildrenOf(obj.value)[..i]
    {
      ret := ret + [obj.value.name + "." + obj.value.children[i]];
    }
    assert ret == ChildrenOf(obj.value);
    return Some(ret);
  }

  /** findParent: everything before the last dot. */
  function Parent(name: string): string {
    if name == [] then "" else if name[|name| - 1] == '.' then name[..|name| - 1] else Parent(name[..|name| - 1])
  }

  lemma {:induction false} ParentOf(a: string, tag: string)
    requires '.' !in tag
    ensures Parent(a + "." + tag) == a
  {
    var s := a + "." + tag;
    if tag == [] {
      assert s[..|s| - 1] == a;
    } else {
      assert s[..|s| - 1] == a + "." + tag[..|tag| - 1];
      ParentOf(a, tag[..|tag| - 1]);
    }
  }

  // ----- names from which a tree can be read back -----

  predicate IsDigit(c: char) { '0' <= c <= '9' }

  predicate Plain(s: string) { forall c :: c in s ==> c != '.' && !IsDigit(c) }

  lemma {:induction false} AllDigits(n: nat)
    ensures forall c :: c in Digits(n) ==> IsDigit(c)
  {
    if 10 <= n { AllDigits(n / 10); }
  }

  /** The part of a tag in front of its number. */
  function NamePart(tag: string): (r: string)
    ensures |r| <= |tag|
  {
    if tag == [] || IsDigit(tag[0]) then [] else [tag[0]] + NamePart(tag[1..])
  }

  lemma {:induction false} LabelSplits(name: string, index: nat)
    requires Plain(name)
    ensures NamePart(Tagged(name, index)) == name && ParseInt(Tagged(name, index)[|name|..]) == index
    ensures '.' !in Tagged(name, index)
  {
    var s := Tagged(name, index);
    AllDigits(index);
    assert s[|name|..] == Digits(index);
    ParseDigits(index);
    hide Digits, ParseInt;
    if name == [] {
      assert s == Digits(index) && s[0] in Digits(index);
    } else {
      assert forall c :: c in name[1..] ==> c in name;
      LabelSplits(name[1..], index);
      assert s[1..] == Tagged(name[1..], index) && s[0] in name;
    }
  }

  predicate SiblingsDiffer(kids: seq<Obj>) {
    forall i: nat, j: nat :: i < j < |kids| ==> kids[i].name != kids[j].name || kids[i].index != kids[j].index
  }

  /** Names without dots and digits, and no two siblings with the same name and index. */
  predicate Good(kids: seq<Obj>)
    decreases kids
  {
    SiblingsDiffer(kids) && forall o :: o in kids ==> Plain(o.name) && Good(o.kids)
  }

  /** No dotted name is too long for the buffer. */
  predicate Fits(prefix: string, kids: seq<Obj>)
    decreases kids
  {
    forall o :: o in kids ==> |Full(prefix, o)| <= Room && Fits(Full(prefix, o), o.kids)
  }

  /** The dotted name is that of the labelled child, or of something below it. */
  predicate At(name: string, prefix: string, tag: string) {
    var h := prefix + "." + tag;
    h <= name && (|name| == |h| || name[|h|] == '.')
  }

  lemma AtLonger(name: string, prefix: string, a: string, b: string)
    requires At(name, prefix, a) && At(name, prefix, b) && |a| < |b|
    ensures '.' in b
  {
    var at := |prefix| + 1 + |a|;
    assert name[at] == (prefix + "." + b)[at] == b[|a|];
  }

  lemma AtOne(name: string, prefix: string, a: string, b: string)
    requires At(name, prefix, a) && At(name, prefix, b) && '.' !in a && '.' !in b
    ensures a == b
  {
    if |a| < |b| { AtLonger(name, prefix, a, b); }
    if |b| < |a| { AtLonger(name, prefix, b, a); }
    assert a == name[|prefix| + 1..|prefix| + 1 + |a|];
    assert b == name[|prefix| + 1..|prefix| + 1 + |b|];
  }

  lemma AtDeeper(name: string, prefix: string, a: string, b: string)
    requires At(name, prefix + "." + a, b)
    ensures At(name, prefix, a) && name != prefix + "." + a
  {
    var h := prefix + "." + a;
    var g := h + "." + b;
    assert h <= g;
    assert g[|h|] == '.';
  }

  // ----- distinct names -----

  /** Everything in the list is one of the children or below one. */
  lemma {:induction false} FlatUnder(prefix: string, kids: seq<Obj>, e: Entry) returns (k: nat)
    requires Fits(prefix, kids) && e in Flat(prefix, kids)
    ensures k < |kids| && At(e.name, prefix, Tag(kids[k]))
    decreases kids
  {
    var name := Full(prefix, kids[0]);
    if e == Entry(name, Labels(kids[0].kids)) {
      k := 0;
    } else if e in Flat(name, kids[0].kids) {
      var d := FlatUnder(name, kids[0].kids, e);
      AtDeeper(e.name, prefix, Tag(kids[0]), Tag(kids[0].kids[d]));
      k := 0;
    } else {
      var d := FlatUnder(prefix, kids[1..], e);
      k := d + 1;
    }
  }

  predicate Distinct(objs: seq<Entry>) { forall i: nat, j: nat :: i < j < |objs| ==> objs[i].name != objs[j].name }

  lemma TagsDiffer(kids: seq<Obj>, i: nat, j: nat)
    requires Good(kids) && i < j < |kids|
    ensures Tag(kids[i]) != Tag(kids[j]) && '.' !in Tag(kids[i]) && '.' !in Tag(kids[j])
  {
    LabelSplits(kids[i].name, kids[i].index);
    LabelSplits(kids[j].name, kids[j].index);
  }

  lemma {:induction false} FlatDistinct(prefix: string, kids: seq<Obj>)
    requires Good(kids) && Fits(prefix, kids)
    ensures Distinct(Flat(prefix, kids))
    decreases kids
  {
    if kids != [] {
      var name := Full(prefix, kids[0]);
      var below, rest := Flat(name, kids[0].kids), Flat(prefix, kids[1..]);
      FlatDistinct(name, kids[0].kids);
      FlatDistinct(prefix, kids[1..]);
      forall e | e in below ensures e.name != name && At(e.name, prefix, Tag(kids[0])) {
        var d := FlatUnder(name, kids[0].kids, e);
        AtDeeper(e.name, prefix, Tag(kids[0]), Tag(kids[0].kids[d]));
      }
      forall e | e in rest ensures !At(e.name, prefix, Tag(kids[0])) {
        var d := FlatUnder(prefix, kids[1..], e);
        TagsDiffer(kids, 0, d + 1);
        if At(e.name, prefix, Tag(kids[0])) { AtOne(e.name, prefix, Tag(kids[0]), Tag(kids[d + 1])); }
      }
    }
  }

  lemma WholeDistinct(kids: seq<Obj>)
    requires Good(kids) && Fits("plat", kids)
    ensures Distinct(Whole(kids))
  {
    FlatDistinct("plat", kids);
    forall e | e in Flat("plat", kids) ensures e.name != "plat" {
      var d := FlatUnder("plat", kids, e);
    }
  }

  // ----- reading the tree back -----

  predicate Holds(objs: seq<Entry>, part: seq<Entry>) { forall e :: e in part ==> Find(objs, e.name) == Some(e) }

  lemma {:induction false} DistinctFinds(objs: seq<Entry>)
    requires Distinct(objs)
    ensures Holds(objs, objs)
  {
    if objs != [] {
      DistinctFinds(objs[1..]);
      forall e | e in objs ensures Find(objs, e.name) == Some(e) {
        if e != objs[0] {
          var i: nat :| i < |objs| && objs[i] == e;
          assert objs[1..][i - 1] == e;
        }
      }
    }
  }

  function Height(kids: seq<Obj>): nat
    decreases kids
  {
    if kids == [] then 0
    else var h, r := 1 + Height(kids[0].kids), Height(kids[1..]); if h < r then r else h
  }

  /** The tree as the configuration shows it: look up a name, go on with each of its children. */
  function Nest(objs: seq<Entry>, prefix: string, labels: seq<string>, depth: nat): seq<Obj>
    decreases depth, |labels|
  {
    if labels == [] || depth == 0 then []
    else
      var l := labels[0];
      var below := match Find(objs, prefix + "." + l)
        case None => []
        case Some(e) => Nest(objs, e.name, e.children, depth - 1);
      [Obj(NamePart(l), ParseInt(l[|NamePart(l)|..]), below)] + Nest(objs, prefix, labels[1..], depth)
  }

  lemma LabelParts(prefix: string, kids: seq<Obj>)
    requires kids != [] && Fits(prefix, kids)
    ensures Labels(kids) == [Tag(kids[0])] + Labels(kids[1..]) && Cut(Full(prefix, kids[0])) == Full(prefix, kids[0])
    ensures Fits(prefix, kids[1..]) && Fits(Full(prefix, kids[0]), kids[0].kids)
  {
    assert |Full(prefix, kids[0])| <= Room;
  }

  lemma HoldsParts(objs: seq<Entry>, prefix: string, kids: seq<Obj>)
    requires kids != [] && Fits(prefix, kids) && Holds(objs, Flat(prefix, kids))
    ensures var o := kids[0]; var name := Full(prefix, o);
            && Find(objs, name) == Some(Entry(name, Labels(o.kids)))
            && Fits(name, o.kids) && Holds(objs, Flat(name, o.kids))
    ensures Fits(prefix, kids[1..]) && Holds(objs, Flat(prefix, kids[1..]))
    ensures Labels(kids) == [Tag(kids[0])] + Labels(kids[1..])
  {
    LabelParts(prefix, kids);
    hide Fits, Labels, Full, Tag, Cut;
    var e := Entry(Full(prefix, kids[0]), Labels(kids[0].kids));
    assert Flat(prefix, kids) == [e] + Flat(e.name, kids[0].kids) + Flat(prefix, kids[1..]);
    assert e in Flat(prefix, kids);
  }

  lemma GoodParts(kids: seq<Obj>)
    requires kids != [] && Good(kids)
    ensures Good(kids[0].kids) && Plain(kids[0].name) && Good(kids[1..])
  {
  }

  lemma Lower(kids: seq<Obj>)
    requires kids != []
    ensures Height(kids[0].kids) < Height(kids) && Height(kids[1..]) <= Height(kids)
  {
  }

  lemma NestNone(objs: seq<Entry>, prefix: string, kids: seq<Obj>, depth: nat)
    requires kids == []
    ensures Nest(objs, prefix, Labels(kids), depth) == []
  {
  }

  lemma NestStep(objs: seq<Entry>, prefix: string, o: Obj, rest: seq<string>, depth: nat)
    requires 0 < depth && Plain(o.name) && Find(objs, Full(prefix, o)) == Some(Entry(Full(prefix, o), Labels(o.kids)))
    requires Nest(objs, Full(prefix, o), Labels(o.kids), depth - 1) == o.kids
    ensures Nest(objs, prefix, [Tag(o)] + rest, depth) == [o] + Nest(objs, prefix, rest, depth)
  {
    LabelSplits(o.name, o.index);
    var labels := [Tag(o)] + rest;
    assert labels[1..] == rest;
  }

  lemma {:induction false} NestFlat(objs: seq<Entry>, prefix: string, kids: seq<Obj>, depth: nat)
    requires Good(kids) && Fits(prefix, kids) && Holds(objs, Flat(prefix, kids)) && Height(kids) <= depth
    ensures Nest(objs, prefix, Labels(kids), depth) == kids
    decreases kids
  {
    hide Good, Fits, Holds, Flat, Height, Nest, Labels, Full;
    if kids != [] {
      var o := kids[0];
      HoldsParts(objs, prefix, kids);
      GoodParts(kids);
      Lower(kids);
      NestFlat(objs, Full(prefix, o), o.kids, depth - 1);
      NestFlat(objs, prefix, kids[1..], depth);
      NestStep(objs, prefix, o, Labels(kids[1..]), depth);
    } else {
      assert Nest(objs, prefix, Labels(kids), depth) == [] by { NestNone(objs, prefix, kids, depth); }
    }
  }

  /** Flattening loses nothing: from the list and the names the tree is found again. */
  lemma FlattenPreserves(kids: seq<Obj>, depth: nat)
    requires Good(kids) && Fits("plat", kids) && Height(kids) < depth
    ensures Distinct(Whole(kids))
    ensures var plat := Find(Whole(kids), "plat");
        plat.Some? && Nest(Whole(kids), "plat", plat.value.children, depth) == kids
  {
    WholeDistinct(kids);
    DistinctFinds(Whole(kids));
    var plat := Entry("plat", Labels(kids));
    assert plat in Whole(kids) && plat.name == "plat";
    NestFlat(Whole(kids), "plat", kids, depth);
  }

  // ----- parents and children -----

  /** e lists a child of this full name. */
  predicate Lists(e: Entry, name: string) { exists i: nat :: i < |e.children| && ChildrenOf(e)[i] == name }

  /** Every object below is a child of the one named by its parent's name. */
  lemma {:induction false} FlatParent(prefix: string, kids: seq<Obj>, e: Entry) returns (p: Entry)
    requires Good(kids) && Fits(prefix, kids) && e in Flat(prefix, kids)
    ensures p == Entry(prefix, Labels(kids)) || p in Flat(prefix, kids)
    ensures Parent(e.name) == p.name && Lists(p, e.name)
    decreases kids
  {
    GoodParts(kids);
    hide Good, Tag;
    var o := kids[0];
    var name := Full(prefix, o);
    if e == Entry(name, Labels(o.kids)) {
      p := Entry(prefix, Labels(kids));
      LabelSplits(o.name, o.index);
      ParentOf(prefix, Tag(o));
      assert ChildrenOf(p)[0] == e.name;
    } else if e in Flat(name, o.kids) {
      p := FlatParent(name, o.kids, e);
    } else {
      var q := FlatParent(prefix, kids[1..], e);
      if q == Entry(prefix, Labels(kids[1..])) {
        p := Entry(prefix, Labels(kids));
        var i: nat :| i < |q.children| && ChildrenOf(q)[i] == e.name;
        assert ChildrenOf(p)[i + 1] == e.name;
      } else {
        p := q;
      }
    }
  }

  /** All labels in the list are free of dots. */
  lemma {:induction false} FlatLabels(prefix: string, kids: seq<Obj>)
    requires Good(kids)
    ensures forall l :: l in Labels(kids) ==> '.' !in l
    ensures forall e, l :: e in Flat(prefix, kids) && l in e.children ==> '.' !in l
    decreases kids
  {
    if kids != [] {
      var o := kids[0];
      LabelSplits(o.name, o.index);
      FlatLabels(Cut(Full(prefix, o)), o.kids);
      FlatLabels(prefix, kids[1..]);
      assert Labels(kids) == [Cut(Tag(o))] + Labels(kids[1..]);
    }
  }

  /** findParent inverts findChildren, and findChildren inverts findParent. */
  lemma ParentInverts(kids: seq<Obj>, e: Entry, name: string)
    requires Good(kids) && Fits("plat", kids)
    ensures e in Whole(kids) && Lists(e, name) ==> Parent(name) == e.name
    ensures e in Whole(kids) && e.name == name && name != "plat" ==>
              var p := Find(Whole(kids), Parent(name)); p.Some? && Lists(p.value, name)
  {
    FlatLabels("plat", kids);
    if e in Whole(kids) && Lists(e, name) {
      var i: nat :| i < |e.children| && ChildrenOf(e)[i] == name;
      assert e.children[i] in e.children;
      ParentOf(e.name, e.children[i]);
    }
    if e in Whole(kids) && e.name == name && name != "plat" {
      var p := FlatParent("plat", kids, e);
      WholeDistinct(kids);
      DistinctFinds(Whole(kids));
      assert p in Whole(kids);
    }
  }

  // ----- names that are too long -----

  ghost predicate AllFound(objs: seq<Entry>, part: seq<Entry>) {
    forall e, name: string | e in part && Lists(e, name) :: Find(objs, name).Some?
  }

  lemma {:induction false} ShortNames(prefix: string, kids: seq<Obj>)
    ensures forall e :: e in Flat(prefix, kids) ==> |e.name| <= Room
    decreases kids
  {
    if kids != [] {
      ShortNames(Cut(Full(prefix, kids[0])), kids[0].kids);
      ShortNames(prefix, kids[1..]);
    }
  }

  /** Where a name is too long, some object lists a child whose name is. */
  lemma {:induction false} LongChild(prefix: string, kids: seq<Obj>) returns (p: Entry, name: string)
    requires !Fits(prefix, kids)
    ensures p == Entry(prefix, Labels(kids)) || p in Flat(prefix, kids)
    ensures Room < |name| && Lists(p, name)
    decreases kids
  {
    hide Tag;
    p := Entry(prefix, Labels(kids));
    var o := kids[0];
    if Room < |Full(prefix, o)| {
      name := ChildrenOf(p)[0];
    } else if !Fits(Full(prefix, o), o.kids) {
      p, name := LongChild(Full(prefix, o), o.kids);
    } else {
      var q;
      q, name := LongChild(prefix, kids[1..]);
      if q == Entry(prefix, Labels(kids[1..])) {
        var i: nat :| i < |q.children| && ChildrenOf(q)[i] == name;
        assert ChildrenOf(p)[i + 1] == name;
      } else {
        p := q;
      }
    }
  }

  lemma {:induction false} ChildrenIn(prefix: string, kids: seq<Obj>, p: Entry, name: string)
    requires Fits(prefix, kids) && (p == Entry(prefix, Labels(kids)) || p in Flat(prefix, kids)) && Lists(p, name)
    ensures exists e :: e in Flat(prefix, kids) && e.name == name
    decreases kids
  {
    var i: nat :| i < |p.children| && ChildrenOf(p)[i] == name;
    var o := kids[0];
    if p == Entry(prefix, Labels(kids)) {
      if i == 0 {
        assert Entry(Full(prefix, o), Labels(o.kids)) in Flat(prefix, kids);
      } else {
        var q := Entry(prefix, Labels(kids[1..]));
        assert ChildrenOf(q)[i - 1] == name;
        ChildrenIn(prefix, kids[1..], q, name);
      }
    } else if p == Entry(Full(prefix, o), Labels(o.kids)) || p in Flat(Full(prefix, o), o.kids) {
      ChildrenIn(Full(prefix, o), o.kids, p, name);
    } else {
      ChildrenIn(prefix, kids[1..], p, name);
    }
  }

  /** Every child that the configuration lists can be looked up if and only if no dotted name was cut. */
  lemma FoundIffFits(kids: seq<Obj>)
    ensures AllFound(Whole(kids), Whole(kids)) <==> Fits("plat", kids)
  {
    if Fits("plat", kids) {
      forall e, name: string | e in Whole(kids) && Lists(e, name) ensures Find(Whole(kids), name).Some? {
        ChildrenIn("plat", kids, e, name);
      }
    } else {
      ShortNames("plat", kids);
      var p, name := LongChild("plat", kids);
      assert p in Whole(kids);
    }
  }

  /** The tags of all objects of a tree, in document order. */
  function Tags(kids: seq<Obj>): seq<string>
    decreases kids
  {
    if kids == [] then [] else [Tag(kids[0])] + Tags(kids[0].kids) + Tags(kids[1..])
  }

  /** The flat list has one entry for each object, in document order; the last part of its name is the object's tag. */
  lemma {:induction false} FlatInOrder(prefix: string, kids: seq<Obj>)
    requires Fits(prefix, kids)
    ensures EndWith(Flat(prefix, kids), Tags(kids))
    decreases kids
  {
    if kids != [] {
      var o := kids[0];
      assert o in kids && forall x :: x in kids[1..] ==> x in kids;
      FlatInOrder(Full(prefix, o), o.kids);
      FlatInOrder(prefix, kids[1..]);
      TagEnds(prefix, o);
      assert Cut(Full(prefix, o)) == Full(prefix, o);
      assert Flat(prefix, kids)
          == [Entry(Full(prefix, o), Labels(o.kids))] + Flat(Full(prefix, o), o.kids) + Flat(prefix, kids[1..]);
      assert Tags(kids) == [Tag(o)] + Tags(o.kids) + Tags(kids[1..]);
      var first, rest := [Entry(Full(prefix, o), Labels(o.kids))], Flat(Full(prefix, o), o.kids);
      assert EndWith(first, [Tag(o)]);
      hide Flat, Tags, EndWith, Full, Tag, Fits;
      EndAppend(first, rest, [Tag(o)], Tags(o.kids));
      EndAppend(first + rest, Flat(prefix, kids[1..]), [Tag(o)] + Tags(o.kids), Tags(kids[1..]));
    }
  }

  predicate EndWith(flat: seq<Entry>, tags: seq<string>) {
    |flat| == |tags| && forall k :: 0 <= k < |tags| ==> EndsWith(flat[k].name, tags[k])
  }

  lemma EndAppend(a: seq<Entry>, b: seq<Entry>, s: seq<string>, t: seq<string>)
    requires EndWith(a, s) && EndWith(b, t)
    ensures EndWith(a + b, s + t)
  {
    hide EndsWith;
  }

  lemma TagEnds(prefix: string, o: Obj)
    ensures EndsWith(Full(prefix, o), Tag(o))
  {
  }

  predicate EndsWith(name: string, tag: string) {
    |tag| < |name| && name[|name| - |tag| - 1] == '.' && name[|name| - |tag|..] == tag
  }

  // ----- translate and duplicate -----

  datatype Kind = Machine | Socket | Core | Another

  /** An object of the hardware description. */
  datatype Hw = Hw(kind: Kind, kids: seq<Hw>)

  function NameOf(k: Kind): string { match k case Machine => "node" case Socket => "socket" case _ => "core" }

  /** What translate adds to one parent, counting from the index. */
  function Translated(kids: seq<Hw>, index: nat): (r: seq<Obj>)
    ensures forall i :: 0 <= i < |r| ==> r[i].index == index + i
    decreases kids
  {
    if kids == [] then []
    else
      var first := TranslatedOne(kids[0], index);
      first + Translated(kids[1..], index + |first|)
  }

  /** One object becomes a child with the next index; of one that is none of the three kinds only the parts count. */
  function TranslatedOne(h: Hw, index: nat): (r: seq<Obj>)
    ensures forall i :: 0 <= i < |r| ==> r[i].index == index + i
    decreases h
  {
    if h.kind.Another? then Translated(h.kids, index) else [Obj(NameOf(h.kind), index, Translated(h.kids, 0))]
  }

  method Translate(kids: seq<Hw>, parent: seq<Obj>, index: nat) returns (after: seq<Obj>, next: nat)
    ensures after == parent + Translated(kids, index) && next == index + |Translated(kids, index)|
    decreases kids
  {
    after, next := parent, index;
    var i: nat := 0;
    while i < |kids|
      invariant i <= |kids| && index <= next
      invariant after + Translated(kids[i..], next) == parent + Translated(kids, index)
      invariant next + |Translated(kids[i..], next)| == index + |Translated(kids, index)|
    {
      var h := kids[i];
      ghost var was, from, first := after, next, TranslatedOne(kids[i], next);
      assert kids[i..][0] == h && kids[i..][1..] == kids[i + 1..];
      if h.kind.Another? {
        after, next := Translate(h.kids, after, next);
      } else {
        var below, count := Translate(h.kids, [], 0);
        after, next := after + [Obj(NameOf(h.kind), next, below)], next + 1;
        assert below == Translated(h.kids, 0);
      }
      assert after == was + first && next == from + |first|;
      assert Translated(kids[i..], from) == first + Translated(kids[i + 1..], next);
      assert was + (first + Translated(kids[i + 1..], next)) == after + Translated(kids[i + 1..], next);
      i := i + 1;
    }
    assert kids[i..] == [];
  }

  lemma SameIndexOnce(kids: seq<Obj>, base: nat)
    requires forall i :: 0 <= i < |kids| ==> kids[i].index == base + i
    ensures SiblingsDiffer(kids)
  {
  }

  lemma {:induction false} TranslatedGood(kids: seq<Hw>, index: nat)
    ensures Good(Translated(kids, index))
    decreases kids
  {
    SameIndexOnce(Translated(kids, index), index);
    if kids != [] {
      var h := kids[0];
      TranslatedGood(h.kids, index);
      TranslatedGood(h.kids, 0);
      TranslatedGood(kids[1..], index + |TranslatedOne(h, index)|);
      OneGood(h, index);
      assert forall o :: o in Translated(kids, index) ==> Plain(o.name) && Good(o.kids);
    }
  }

  lemma OneGood(h: Hw, index: nat)
    requires Good(Translated(h.kids, index)) && Good(Translated(h.kids, 0))
    ensures forall o :: o in TranslatedOne(h, index) ==> Plain(o.name) && Good(o.kids)
  {
  }

  // ----- what translation keeps -----

  /** The kinds of all objects of a description, in document order. */
  function Preorder(kids: seq<Hw>): seq<Kind>
    decreases kids
  {
    if kids == [] then [] else [kids[0].kind] + Preorder(kids[0].kids) + Preorder(kids[1..])
  }

  /** What machines, sockets and cores are called; nothing else is named. */
  function Named(kinds: seq<Kind>): seq<string> {
    if kinds == [] then []
    else
      (match kinds[0] case Machine => ["node"] case Socket => ["socket"] case Core => ["core"] case Another => [])
      + Named(kinds[1..])
  }

  /** The names of all objects of a tree, in document order. */
  function Called(kids: seq<Obj>): seq<string>
    decreases kids
  {
    if kids == [] then [] else [kids[0].name] + Called(kids[0].kids) + Called(kids[1..])
  }

  lemma {:induction false} NamedAppend(a: seq<Kind>, b: seq<Kind>)
    ensures Named(a + b) == Named(a) + Named(b)
  {
    if a == [] {
      assert a + b == b;
    } else {
      assert (a + b)[0] == a[0] && (a + b)[1..] == a[1..] + b;
      NamedAppend(a[1..], b);
    }
  }

  lemma {:induction false} CalledAppend(a: seq<Obj>, b: seq<Obj>)
    ensures Called(a + b) == Called(a) + Called(b)
  {
    if a == [] {
      assert a + b == b;
    } else {
      assert (a + b)[0] == a[0] && (a + b)[1..] == a[1..] + b;
      CalledAppend(a[1..], b);
    }
  }

  /** Every machine, socket and core of the description is there, wherever it is, in document order, and no more. */
  lemma {:induction false} NothingLost(kids: seq<Hw>, index: nat)
    ensures Called(Translated(kids, index)) == Named(Preorder(kids))
    decreases kids
  {
    if kids != [] {
      var h := kids[0];
      var first := TranslatedOne(h, index);
      NothingLost(h.kids, index);
      NothingLost(h.kids, 0);
      NothingLost(kids[1..], index + |first|);
      CalledAppend(first, Translated(kids[1..], index + |first|));
      NamedAppend([h.kind] + Preorder(h.kids), Preorder(kids[1..]));
      NamedAppend([h.kind], Preorder(h.kids));
      OneNamed(h, index);
      assert Translated(kids, index) == first + Translated(kids[1..], index + |first|);
      hide TranslatedOne, Called, Named, Translated;
    }
  }

  lemma OneNamed(h: Hw, index: nat)
    requires Called(Translated(h.kids, index)) == Named(Preorder(h.kids)) == Called(Translated(h.kids, 0))
    ensures Called(TranslatedOne(h, index)) == Named([h.kind]) + Named(Preorder(h.kids))
  {
    assert [h.kind][1..] == [] && Named([]) == [];
    hide Translated, Preorder;
    if !h.kind.Another? {
      var o := Obj(NameOf(h.kind), index, Translated(h.kids, 0));
      assert [o][1..] == [] && Called([]) == [];
    }
  }

  /** Where each object of a tree is: its name and how deep it is, in document order. */
  function Outline(kids: seq<Obj>, depth: nat): seq<(string, nat)>
    decreases kids
  {
    if kids == [] then []
    else [(kids[0].name, depth)] + Outline(kids[0].kids, depth + 1) + Outline(kids[1..], depth)
  }

  /** Where the machines, sockets and cores of a description are, counting only these. */
  function HwOutline(kids: seq<Hw>, depth: nat): seq<(string, nat)>
    decreases kids
  {
    if kids == [] then [] else OneOutline(kids[0], depth) + HwOutline(kids[1..], depth)
  }

  function OneOutline(h: Hw, depth: nat): seq<(string, nat)>
    decreases h
  {
    match h.kind
    case Machine => [("node", depth)] + HwOutline(h.kids, depth + 1)
    case Socket => [("socket", depth)] + HwOutline(h.kids, depth + 1)
    case Core => [("core", depth)] + HwOutline(h.kids, depth + 1)
    case Another => HwOutline(h.kids, depth)
  }

  lemma OneKept(h: Hw, index: nat, depth: nat)
    requires Outline(Translated(h.kids, index), depth) == HwOutline(h.kids, depth)
    requires Outline(Translated(h.kids, 0), depth + 1) == HwOutline(h.kids, depth + 1)
    ensures Outline(TranslatedOne(h, index), depth) == OneOutline(h, depth)
  {
    if !h.kind.Another? {
      var o := Obj(NameOf(h.kind), index, Translated(h.kids, 0));
      hide Translated, HwOutline;
      assert [o][1..] == [] && Outline([], depth) == [];
      assert Outline([o], depth) == [(o.name, depth)] + Outline(o.kids, depth + 1);
    }
  }

  lemma {:induction false} OutlineAppend(a: seq<Obj>, b: seq<Obj>, depth: nat)
    ensures Outline(a + b, depth) == Outline(a, depth) + Outline(b, depth)
  {
    if a == [] {
      assert a + b == b;
    } else {
      assert (a + b)[0] == a[0] && (a + b)[1..] == a[1..] + b;
      OutlineAppend(a[1..], b, depth);
    }
  }

  /** Each of them is below the one it was in, the objects of other kinds between them left out. */
  lemma {:induction false} ParentsKept(kids: seq<Hw>, index: nat, depth: nat)
    ensures Outline(Translated(kids, index), depth) == HwOutline(kids, depth)
    decreases kids
  {
    if kids != [] {
      var h := kids[0];
      var first := TranslatedOne(h, index);
      ParentsKept(h.kids, index, depth);
      ParentsKept(h.kids, 0, depth + 1);
      ParentsKept(kids[1..], index + |first|, depth);
      OneKept(h, index, depth);
      assert Translated(kids, index) == first + Translated(kids[1..], index + |first|);
      hide TranslatedOne, Outline, OneOutline, Translated;
      OutlineAppend(first, Translated(kids[1..], index + |first|), depth);
    }
  }

  /**
    Copies of the first object under the platform, with their own index; without a first one there
    is nothing to copy.
   */
  function Copies(first: Obj, n: nat): (r: seq<Obj>)
    ensures |r| == if n <= 1 then 0 else n - 1
  {
    if n <= 1 then [] else seq(n - 1, i requires 0 <= i < n - 1 => first.(index := i + 1))
  }

  method Duplicate(plat: seq<Obj>, nodecount: nat) returns (r: Option<seq<Obj>>)
    ensures r.None? <==> plat == [] && 1 < nodecount
    ensures r.Some? ==> r.value == if nodecount <= 1 then plat else plat + Copies(plat[0], nodecount)
    ensures r.Some? && 1 < nodecount ==>
              && |r.value| == |plat| + nodecount - 1 && r.value[..|plat|] == plat
              && forall i :: 0 < i < nodecount ==> r.value[|plat| + i - 1] == Obj(plat[0].name, i, plat[0].kids)
  {
    if plat == [] && 1 < nodecount { return None; }
    var all, i: nat := plat, 1;
    while i < nodecount
      invariant 1 <= i && (1 < nodecount ==> i <= nodecount)
      invariant all == if 1 < nodecount then plat + Copies(plat[0], nodecount)[..i - 1] else plat
    {
      all, i := all + [plat[0].(index := i)], i + 1;
    }
    return Some(all);
  }

  /** Whether a copy gets the name and index of another child. */
  predicate Clash(plat: seq<Obj>, n: nat)
    requires plat != []
  {
    exists i: nat :: 0 < i < |plat| && i < n && plat[i].name == plat[0].name
  }

  lemma CopiesDiffer(plat: seq<Obj>, n: nat)
    requires plat != [] && (forall i :: 0 <= i < |plat| ==> plat[i].index == i)
    ensures SiblingsDiffer(plat + Copies(plat[0], n)) <==> !Clash(plat, n)
  {
    var all := plat + Copies(plat[0], n);
    if i: nat :| 0 < i < |plat| && i < n && plat[i].name == plat[0].name {
      var j := |plat| + i - 1;
      assert i < j < |all| && all[i] == plat[i] && all[j] == plat[0].(index := i);
    } else {
      forall i: nat, j: nat | i < j < |all| ensures all[i].name != all[j].name || all[i].index != all[j].index {
        assert i < |plat| ==> all[i] == plat[i];
        assert |plat| <= i ==> all[i] == plat[0].(index := i - |plat| + 1);
        assert |plat| <= j ==> all[j] == plat[0].(index := j - |plat| + 1);
      }
    }
  }

  /** Copying keeps siblings apart unless one of the others has the name of the first and an index a copy gets. */
  lemma CopiesGoodIff(hw: seq<Hw>, n: nat)
    requires Translated(hw, 0) != []
    ensures var plat := Translated(hw, 0); Good(plat + Copies(plat[0], n)) <==> !Clash(plat, n)
  {
    var plat := Translated(hw, 0);
    TranslatedGood(hw, 0);
    CopiesDiffer(plat, n);
    forall o | o in plat + Copies(plat[0], n) ensures Plain(o.name) && Good(o.kids) {
      if o in plat {
      } else {
        assert o.name == plat[0].name && o.kids == plat[0].kids && plat[0] in plat;
      }
    }
  }

  /**
    The generated file: every description whose copies do not clash and whose names fit is read
    back as it was translated and copied.
   */
  lemma PwrgenPreserves(hw: seq<Hw>, n: nat, depth: nat)
    requires Translated(hw, 0) != [] && !Clash(Translated(hw, 0), n)
    requires var all := Translated(hw, 0) + Copies(Translated(hw, 0)[0], n); Fits("plat", all) && Height(all) < depth
    ensures var all := Translated(hw, 0) + Copies(Translated(hw, 0)[0], n);
            && Distinct(Whole(all))
            && var plat := Find(Whole(all), "plat");
                  plat.Some? && Nest(Whole(all), "plat", plat.value.children, depth) == all
  {
    CopiesGoodIff(hw, n);
    FlattenPreserves(Translated(hw, 0) + Copies(Translated(hw, 0)[0], n), depth);
  }
}
