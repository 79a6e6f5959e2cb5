/**
  Object numbers: the levels of a machine (platform, cabinet, board, node), the
  number of an object within its level, how many children it has, and which
  names are accepted.
 */
module Numbering {
  import opened Names
  import opened Serial

  /** One level: how many objects it has, and how many children each full one has. */
  datatype Foo = Foo(total: nat, per: nat)

  /** Local numbers from the root object down; the root's own number comes first. */
  type Path = seq<nat>

  function Ceil(a: nat, b: nat): nat
    requires 0 < b
  {
    a / b + if a % b != 0 then 1 else 0
  }

  /** The totals follow from the leaves upwards, and the leaves have no children. */
  predicate Regular(levels: seq<Foo>) {
    && levels != []
    && (forall l :: 0 <= l < |levels| - 1 ==>
          0 < levels[l].per && levels[l].total == Ceil(levels[l + 1].total, levels[l].per))
    && levels[|levels| - 1].per == 0
  }

  // ----- numbers -----

  /** getLeafCount. */
  function LeafCount(levels: seq<Foo>, l: nat, stop: nat): int
    requires l < |levels|
    decreases |levels| - l
  {
    if l == |levels| - 1 || l == stop then -1
    else if l + 1 == stop then levels[l].per
    else LeafCount(levels, l + 1, stop) * levels[l].per
  }

  /** The number of an object within its level, digit by digit from the root. */
  function Number(levels: seq<Foo>, path: Path): nat
    requires 0 < |path| <= |levels|
  {
    var d := |path| - 1;
    if d == 0 then path[0] else Number(levels, path[..d]) * levels[d - 1].per + path[d]
  }

  /** What the loop of calcTypePos adds up. */
  function TypePos(levels: seq<Foo>, path: Path, want: nat, d: nat): int
    requires d <= want < |levels| && d <= |path|
  {
    if d == 0 then 0 else TypePos(levels, path, want, d - 1) + LeafCount(levels, d - 1, want) * path[d - 1]
  }

  lemma {:induction false} LeafCountStep(levels: seq<Foo>, l: nat, stop: nat)
    requires l < stop && stop + 1 < |levels|
    ensures LeafCount(levels, l, stop + 1) == LeafCount(levels, l, stop) * levels[stop].per
    decreases stop - l
  {
    if l + 1 < stop {
      LeafCountStep(levels, l + 1, stop);
      var a, b, c := LeafCount(levels, l + 1, stop), levels[stop].per, levels[l].per;
      assert (a * b) * c == (a * c) * b;
    } else {
      assert LeafCount(levels, l + 1, stop + 1) == levels[stop].per;
    }
  }

  lemma {:induction false} TypePosStep(levels: seq<Foo>, path: Path, want: nat, d: nat)
    requires d <= want && want + 1 < |levels| && d <= |path|
    ensures TypePos(levels, path, want + 1, d) == TypePos(levels, path, want, d) * levels[want].per
  {
    if d != 0 {
      TypePosStep(levels, path, want, d - 1);
      LeafCountStep(levels, d - 1, want);
      var a, b, c, x := TypePos(levels, path, want, d - 1), levels[want].per, LeafCount(levels, d - 1, want),
          path[d - 1];
      Distribute(a, b, c, x);
    }
  }

  lemma Distribute(a: int, b: int, c: int, x: int)
    ensures a * b + (c * b) * x == (a + c * x) * b
  {
    assert (c * b) * x == (c * x) * b;
  }

  lemma {:induction false} TypePosPrefix(levels: seq<Foo>, path: Path, want: nat, d: nat, n: nat)
    requires d <= want < |levels| && d <= n <= |path|
    ensures TypePos(levels, path[..n], want, d) == TypePos(levels, path, want, d)
  {
    if d != 0 { TypePosPrefix(levels, path, want, d - 1, n); }
  }

  /** The positions the loop adds up, plus the object's own number, are its number within the level. */
  lemma {:induction false} TypePosIsNumber(levels: seq<Foo>, path: Path)
    requires 0 < |path| <= |levels|
    ensures TypePos(levels, path, |path| - 1, |path| - 1) + path[|path| - 1] == Number(levels, path)
  {
    var d := |path| - 1;
    if d != 0 {
      TypePosIsNumber(levels, path[..d]);
      TypePosStep(levels, path, d - 1, d - 1);
      TypePosPrefix(levels, path, d - 1, d - 1, d);
      assert LeafCount(levels, d - 1, d) == levels[d - 1].per;
      var a, x, p := TypePos(levels, path, d - 1, d - 1), path[d - 1], levels[d - 1].per;
      assert TypePos(levels, path, d, d) == a * p + p * x;
      assert (a + x) * p == a * p + p * x;
    }
  }

  /** calcTypePos and the addition in calcNumChildren. */
  method CalcNumber(levels: seq<Foo>, path: Path) returns (myNum: int)
    requires 0 < |path| <= |levels|
    ensures myNum == Number(levels, path)
  {
    var want := |path| - 1;
    var ret := 0;
    for d := 0 to want
      invariant ret == TypePos(levels, path, want, d)
    {
      ret := ret + LeafCount(levels, d, want) * path[d];
    }
    TypePosIsNumber(levels, path);
    myNum := ret + path[want];
  }

  // ----- children -----

  function TotalChildren(levels: seq<Foo>, l: nat): nat
    requires l < |levels|
  {
    if l + 1 < |levels| then levels[l + 1].total else 0
  }

  /** calcNumChildren for object number k of level l; None where it reports an error and exits. */
  function Children(levels: seq<Foo>, l: nat, k: nat): Option<nat>
    requires l < |levels|
  {
    var total, per := TotalChildren(levels, l), levels[l].per;
    if (k + 1) * per <= total then Some(per)
    else if (k + 1) * per < total + per then Some(total % per)
    else None
  }

  /**
    The number of children is what is left of the next level, at most per; the
    error branch is taken exactly for objects whose first child is out of range.
   */
  lemma ChildrenIs(levels: seq<Foo>, l: nat, k: nat)
    requires Regular(levels) && l < |levels| - 1
    ensures var total, per := TotalChildren(levels, l), levels[l].per;
            && (Children(levels, l, k).Some? <==> k * per < total)
            && (k * per < total ==>
                  Children(levels, l, k) == Some(if per <= total - k * per then per else total - k * per))
  {
    var total, per := TotalChildren(levels, l), levels[l].per;
    assert (k + 1) * per == k * per + per;
    if k * per < total && total < (k + 1) * per { DivUnique(total, per, k, total - k * per); }
  }

  /** The leaves have no children, whatever their number. */
  lemma LeavesHaveNone(levels: seq<Foo>, path: Path)
    requires Regular(levels) && |path| == |levels|
    ensures Children(levels, |levels| - 1, Number(levels, path)) == Some(0) && FindChildren(levels, path) == []
  {
    assert (Number(levels, path) + 1) * 0 == 0;
  }

  /** Objects of a regular level are exactly those with a first child. */
  lemma InLevel(levels: seq<Foo>, l: nat, k: nat)
    requires Regular(levels) && l < |levels| - 1
    ensures k < levels[l].total <==> k * levels[l].per < levels[l + 1].total
  {
    var total, per := levels[l + 1].total, levels[l].per;
    assert total == (total / per) * per + total % per;
    if k < levels[l].total {
      MulLe(k, levels[l].total - 1, per);
    } else {
      MulLe(levels[l].total, k, per);
      assert (total / per + 1) * per == (total / per) * per + per;
    }
  }

  lemma MulLe(a: nat, b: nat, p: nat)
    requires a <= b
    ensures a * p <= b * p
  {
  }

  function ChildrenUpTo(levels: seq<Foo>, l: nat, k: nat): nat
    requires l < |levels|
  {
    if k == 0 then 0
    else
      var c := Children(levels, l, k - 1);
      ChildrenUpTo(levels, l, k - 1) + if c.Some? then c.value else 0
  }

  lemma {:induction false} ChildrenSoFar(levels: seq<Foo>, l: nat, k: nat)
    requires Regular(levels) && l < |levels| - 1 && k <= levels[l].total
    ensures var total, per := levels[l + 1].total, levels[l].per;
            ChildrenUpTo(levels, l, k) == if k * per <= total then k * per else total
  {
    if k != 0 {
      ChildrenSoFar(levels, l, k - 1);
      ChildrenIs(levels, l, k - 1);
      InLevel(levels, l, k - 1);
      assert k * levels[l].per == (k - 1) * levels[l].per + levels[l].per;
    }
  }

  /** Over one level the children add up to the next level, nothing lost and nothing counted twice. */
  lemma ChildrenAddUp(levels: seq<Foo>, l: nat)
    requires Regular(levels) && l < |levels| - 1
    ensures ChildrenUpTo(levels, l, levels[l].total) == levels[l + 1].total
  {
    ChildrenSoFar(levels, l, levels[l].total);
    InLevel(levels, l, levels[l].total);
  }

  // ----- valid names -----

  /** _checkName: every number is within the children its parent has; None and false both end in exit. */
  predicate Check(levels: seq<Foo>, path: Path)
    requires 0 < |path| <= |levels|
  {
    var d := |path| - 1;
    d == 0 ||
    (var c := Children(levels, d - 1, Number(levels, path[..d]));
     c.Some? && path[d] < c.value && Check(levels, path[..d]))
  }

  /** findChildren. */
  function FindChildren(levels: seq<Foo>, path: Path): (s: seq<Path>)
    requires 0 < |path| <= |levels|
  {
    var c := Children(levels, |path| - 1, Number(levels, path));
    if c.None? then [] else seq(c.value, i requires 0 <= i => path + [i])
  }

  /** Reached from the platform by findChildren again and again. */
  ghost predicate Enumerated(levels: seq<Foo>, path: Path)
    requires 0 < |path| <= |levels|
    decreases |path|
  {
    path == [0] || (1 < |path| && Enumerated(levels, path[..|path| - 1])
        && path in FindChildren(levels, path[..|path| - 1]))
  }

  /** A path among the children of another has it as its prefix. */
  lemma ChildOf(levels: seq<Foo>, up: Path, path: Path)
    requires 0 < |up| <= |levels| && path in FindChildren(levels, up)
    ensures |path| == |up| + 1 && path[..|up|] == up
    ensures var c := Children(levels, |up| - 1, Number(levels, up)); c.Some? && path[|up|] < c.value
    ensures path[|up|] < |FindChildren(levels, up)| && FindChildren(levels, up)[path[|up|]] == path
  {
    var i :| 0 <= i < |FindChildren(levels, up)| && FindChildren(levels, up)[i] == path;
    assert path == up + [i];
  }

  lemma {:induction false} CheckedIsEnumerated(levels: seq<Foo>, path: Path)
    requires 0 < |path| <= |levels| && path[0] == 0 && Check(levels, path)
    ensures Enumerated(levels, path)
    decreases |path|
  {
    if |path| == 1 {
      assert path == [0];
    } else {
      var up := path[..|path| - 1];
      CheckedIsEnumerated(levels, up);
      IsChild(levels, path);
    }
  }

  lemma IsChild(levels: seq<Foo>, path: Path)
    requires 1 < |path| <= |levels| && Check(levels, path)
    ensures path in FindChildren(levels, path[..|path| - 1])
  {
    var up, last := path[..|path| - 1], path[|path| - 1];
    assert path == up + [last];
    assert FindChildren(levels, up)[last] == path;
  }

  lemma {:induction false} EnumeratedIsChecked(levels: seq<Foo>, path: Path)
    requires 0 < |path| <= |levels| && Enumerated(levels, path)
    ensures path[0] == 0 && Check(levels, path)
    decreases |path|
  {
    if path != [0] {
      ChildOf(levels, path[..|path| - 1], path);
      EnumeratedIsChecked(levels, path[..|path| - 1]);
    }
  }

  /** A name is accepted exactly when repeated findChildren yields it. */
  lemma CheckIffEnumerated(levels: seq<Foo>, path: Path)
    requires 0 < |path| <= |levels| && path[0] == 0
    ensures Check(levels, path) <==> Enumerated(levels, path)
  {
    if Check(levels, path) { CheckedIsEnumerated(levels, path); }
    if Enumerated(levels, path) { EnumeratedIsChecked(levels, path); }
  }

  /** Accepted names are numbered within their level, whatever the shape of the levels. */
  lemma {:induction false} NumberInLevel(levels: seq<Foo>, path: Path)
    requires Regular(levels) && levels[0].total == 1
    requires 0 < |path| <= |levels| && path[0] == 0 && Check(levels, path)
    ensures Number(levels, path) < levels[|path| - 1].total
  {
    var d := |path| - 1;
    if d != 0 {
      NumberInLevel(levels, path[..d]);
      ChildrenIs(levels, d - 1, Number(levels, path[..d]));
    }
  }

  lemma SameDigits(a: nat, x: nat, b: nat, y: nat, p: nat)
    requires x < p && y < p && a * p + x == b * p + y
    ensures a == b && x == y
  {
    DivUnique(a * p + x, p, a, x);
    DivUnique(b * p + y, p, b, y);
  }

  /** No two accepted names of one level have the same number. */
  lemma {:induction false} NumberOnce(levels: seq<Foo>, p: Path, q: Path)
    requires Regular(levels) && 0 < |p| == |q| <= |levels| && p[0] == q[0]
    requires Check(levels, p) && Check(levels, q) && Number(levels, p) == Number(levels, q)
    ensures p == q
  {
    var d := |p| - 1;
    if d != 0 {
      var a, b, per := Number(levels, p[..d]), Number(levels, q[..d]), levels[d - 1].per;
      ChildrenIs(levels, d - 1, a);
      ChildrenIs(levels, d - 1, b);
      SameDigits(a, p[d], b, q[d], per);
      NumberOnce(levels, p[..d], q[..d]);
      assert p == p[..d] + [p[d]] && q == q[..d] + [q[d]];
    }
  }

  /** Every number of a level belongs to an accepted name: repeated division finds it. */
  lemma {:induction false} NumberAll(levels: seq<Foo>, l: nat, k: nat) returns (path: Path)
    requires Regular(levels) && levels[0].total == 1 && l < |levels| && k < levels[l].total
    ensures |path| == l + 1 && path[0] == 0 && Check(levels, path) && Number(levels, path) == k
  {
    if l == 0 {
      path := [0];
    } else {
      var per := levels[l - 1].per;
      var up := k / per;
      assert k == up * per + k % per;
      InLevel(levels, l - 1, up);
      var above := NumberAll(levels, l - 1, up);
      ChildrenIs(levels, l - 1, up);
      path := above + [k % per];
      assert path[..l] == above;
    }
  }
}
