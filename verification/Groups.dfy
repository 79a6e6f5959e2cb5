/** Groups of local and remote objects, and where a group read puts their rows. */
module Groups {
  import opened Names
  import opened Gather

  /** An object of a context; remote when it is read through a communicator. */
  datatype Obj = Obj(name: Name, remote: bool)

  function Filter(s: seq<Obj>, remote: bool): seq<Obj> {
    if s == [] then []
    else Filter(s[..|s| - 1], remote) + if s[|s| - 1].remote == remote then [s[|s| - 1]] else []
  }

  /** First occurrences only. */
  function Once(s: seq<Obj>): seq<Obj> {
    if s == [] then []
    else
      var rest := Once(s[..|s| - 1]);
      if s[|s| - 1] in rest then rest else rest + [s[|s| - 1]]
  }

  lemma {:induction false} OnceShorter(s: seq<Obj>)
    ensures |Once(s)| <= |s|
    ensures |Once(s)| == |s| ==> Once(s) == s
  {
    if s != [] { OnceShorter(s[..|s| - 1]); }
  }

  lemma {:induction false} FilterSizes(s: seq<Obj>)
    ensures |Filter(s, false)| + |Filter(s, true)| == |s|
    ensures Filter(s, true) == [] ==> Filter(s, false) == s
    ensures Filter(s, false) == [] ==> Filter(s, true) == s
  {
    if s != [] { FilterSizes(s[..|s| - 1]); }
  }

  // ----- what a read writes -----

  type Values = Obj -> Row

  /**
    The buffer after DistGrp::attrGetValues: local rows by their place among the locals, then
    remote rows by theirs.
   */
  function Written(list: seq<Obj>, dist: seq<Obj>, v: Values, buf: seq<Row>): (r: seq<Row>)
    ensures |r| == |buf|
    ensures forall j :: 0 <= j < |r| ==>
      r[j] == if j < |dist| then v(dist[j]) else if j < |list| then v(list[j]) else buf[j]
  {
    seq(|buf|, j requires 0 <= j < |buf| =>
      if j < |dist| then v(dist[j]) else if j < |list| then v(list[j]) else buf[j])
  }

  /** Row j of the buffer is what object j of the group reads, whatever was in the buffer. */
  ghost predicate RowsInPlace(all: seq<Obj>, list: seq<Obj>, dist: seq<Obj>) {
    forall v: Values, buf: seq<Row>, j :: |buf| == |all| && 0 <= j < |all| ==>
        Written(list, dist, v, buf)[j] == v(all[j])
  }

  lemma InPlaceMeans(all: seq<Obj>, list: seq<Obj>, dist: seq<Obj>)
    requires RowsInPlace(all, list, dist) && all != []
    ensures |all| <= |dist| || |all| <= |list|
  {
    var j := |all| - 1;
    var v: Values := (o: Obj) => [1.0];
    var buf: seq<Row> := seq(|all|, _ => [0.0]);
    assert Written(list, dist, v, buf)[j] == v(all[j]);
    assert v(all[j])[0] == 1.0 && buf[j][0] == 0.0;
  }

  predicate AllAre(s: seq<Obj>, remote: bool) { forall j :: 0 <= j < |s| ==> s[j].remote == remote }

  predicate NoneTwice(s: seq<Obj>) { forall i, j :: 0 <= i < j < |s| ==> s[i] != s[j] }

  /** Filtering keeps the objects of the kind, all of them, in their order. */
  lemma {:induction false} FilterIs(s: seq<Obj>, remote: bool)
    ensures AllAre(Filter(s, remote), remote)
    ensures forall o :: o in Filter(s, remote) <==> o in s && o.remote == remote
    ensures s != [] ==> Filter(s[..|s| - 1], remote) <= Filter(s, remote)
  {
    if s != [] {
      var init, last := s[..|s| - 1], s[|s| - 1];
      FilterIs(init, remote);
      OneMore(init, last, Filter(init, remote), remote);
      assert s == init + [last];
    }
  }

  lemma OneMore(init: seq<Obj>, last: Obj, kept: seq<Obj>, remote: bool)
    requires AllAre(kept, remote) && forall o :: o in kept <==> o in init && o.remote == remote
    ensures var more := kept + if last.remote == remote then [last] else [];
            && AllAre(more, remote) && kept <= more
            && forall o :: o in more <==> o in init + [last] && o.remote == remote
  {
  }

  lemma {:induction false} FilterAll(s: seq<Obj>, remote: bool)
    ensures Filter(s, remote) == s <==> AllAre(s, remote)
  {
    if AllAre(s, remote) {
      if s != [] { FilterAll(s[..|s| - 1], remote); }
    } else {
      FilterIs(s, remote);
    }
  }

  /** Every object stays once, where it came first. */
  lemma {:induction false} OnceIs(s: seq<Obj>)
    ensures NoneTwice(Once(s)) && (forall o :: o in Once(s) <==> o in s)
    ensures Once(s) == s <==> NoneTwice(s)
    ensures s != [] ==> Once(s[..|s| - 1]) <= Once(s)
  {
    if s != [] {
      var n := |s| - 1;
      OnceIs(s[..n]);
      OnceShorter(s[..n]);
      assert s == s[..n] + [s[n]];
      if Once(s) == s { assert Once(s[..n]) == s[..n]; }
    }
  }

  /** The lists are the whole group exactly when it is all remote, or all local with no object added twice. */
  lemma WholeIff(all: seq<Obj>)
    ensures Filter(all, true) == all <==> AllAre(all, true)
    ensures Once(Filter(all, false)) == all <==> AllAre(all, false) && NoneTwice(all)
  {
    FilterAll(all, true);
    FilterAll(all, false);
    OnceIs(Filter(all, false));
    OnceIs(all);
    OnceShorter(Filter(all, false));
    FilterSizes(all);
    if Once(Filter(all, false)) == all { assert Filter(all, false) == all; }
  }

  /**
    Every object of a group gets its own row exactly when the group is all
    remote, or all local with no object added twice.
   */
  lemma RowsInPlaceIff(all: seq<Obj>)
    ensures var list, dist := Once(Filter(all, false)), Filter(all, true);
            RowsInPlace(all, list, dist) <==> AllAre(all, true) || (AllAre(all, false) && NoneTwice(all))
  {
    var list, dist := Once(Filter(all, false)), Filter(all, true);
    WholeIff(all);
    FilterSizes(all);
    OnceShorter(Filter(all, false));
    hide Filter, Once, AllAre, NoneTwice;
    if RowsInPlace(all, list, dist) && all != [] { InPlaceMeans(all, list, dist); }
    if list == all && dist != all {
      assert dist == [];
    }
  }

  class DistGrp {
    /** m_list, m_distObjs and m_allObjs. */
    var list: seq<Obj>
    var dist: seq<Obj>
    var all: seq<Obj>

    ghost predicate Valid()
      reads this
    {
      list == Once(Filter(all, false)) && dist == Filter(all, true)
    }

    constructor ()
      ensures Valid() && all == []
    {
      list, dist, all := [], [], [];
    }

    /** A remote object already there is refused; a local one is accepted, but not listed again. */
    method Add(obj: Obj) returns (ok: bool)
      requires Valid()
      modifies this
      ensures Valid()
      ensures ok <==> !(obj.remote && obj in old(dist))
      ensures all == if ok then old(all) + [obj] else old(all)
    {
      if !obj.remote {
        AddLocal(obj);
      } else {
        for i := 0 to |dist|
          invariant list == old(list) && dist == old(dist) && all == old(all)
          invariant obj !in dist[..i]
        {
          if dist[i] == obj { return false; }
        }
        assert dist[..|dist|] == dist;
        dist := dist + [obj];
      }
      FilterLast(all, obj, false);
      FilterLast(all, obj, true);
      OnceLast(Filter(all, false), obj);
      all := all + [obj];
      return true;
    }

    lemma FilterLast(s: seq<Obj>, obj: Obj, remote: bool)
      ensures Filter(s + [obj], remote) == if obj.remote == remote then Filter(s, remote) + [obj] else Filter(s, remote)
    {
      assert (s + [obj])[..|s|] == s;
    }

    lemma OnceLast(s: seq<Obj>, obj: Obj)
      ensures Once(s + [obj]) == if obj in Once(s) then Once(s) else Once(s) + [obj]
    {
      assert (s + [obj])[..|s|] == s;
    }

    /** Grp::add; its result is not looked at. */
    method AddLocal(obj: Obj)
      modifies this`list
      ensures list == if obj in old(list) then old(list) else old(list) + [obj]
    {
      for i := 0 to |list|
        invariant list == old(list) && obj !in list[..i]
      {
        if list[i] == obj { return; }
      }
      assert list[..|list|] == list;
      list := list + [obj];
    }

    /** One row for each object of the list, from the start of the buffer. */
    method WriteRows(objs: seq<Obj>, v: Values, buf: array<Row>)
      requires |objs| <= buf.Length
      modifies buf
      ensures forall j :: 0 <= j < buf.Length ==> buf[j] == if j < |objs| then v(objs[j]) else old(buf[j])
    {
      for i := 0 to |objs|
        invariant forall j :: 0 <= j < buf.Length ==> buf[j] == if j < i then v(objs[j]) else old(buf[j])
      {
        buf[i] := v(objs[i]);
      }
    }

    /** The row of a remote object is found by its place among the remote ones, not in the group. */
    method AttrGetValues(v: Values, buf: array<Row>)
      requires Valid() && buf.Length == |all|
      modifies buf
      ensures buf[..] == Written(list, dist, v, old(buf[..]))
    {
      FilterSizes(all);
      OnceShorter(Filter(all, false));
      assert |list| <= |all| && |dist| <= |all|;
      hide Filter, Once;
      WriteRows(list, v, buf);
      WriteRows(dist, v, buf);
    }
  }
}
