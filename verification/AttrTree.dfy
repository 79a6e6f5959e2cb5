/**
  The configuration of one attribute tree and how a context cuts it: which
  devices it reads itself and which objects it leaves to other servers.
 */
module AttrTree {
  import opened Names
  import Gather

  /** A device of the configuration and the string it is opened with. */
  datatype Device = Device(dev: string, open: string)

  /** The sources of one attribute of one object, all of operation SUM over Float. */
  datatype Source = Source(devs: seq<Device>, kids: seq<string>)

  /** Objects with a location have a server; no name has more than depth components. */
  datatype Config = Config(sources: map<(Name, Attr), Source>, located: set<Name>, depth: nat)

  ghost predicate Distinct<T>(s: seq<T>) {
    forall i, j :: 0 <= i < j < |s| ==> s[i] != s[j]
  }

  ghost predicate WellFormed(cfg: Config) {
    && (forall o, a :: (o, a) in cfg.sources ==> 0 < |o| && (cfg.sources[(o, a)].kids != [] ==> |o| < cfg.depth))
    && (forall o, a :: (o, a) in cfg.sources ==> Distinct(cfg.sources[(o, a)].kids))
  }

  function SourceOf(cfg: Config, o: Name, a: Attr): Source {
    if (o, a) in cfg.sources then cfg.sources[(o, a)] else Source([], [])
  }

  function Child(o: Name, kid: string): Name { o + [kid] }

  /** findObjLocation: the location of an object is its own or its nearest located ancestor's. */
  predicate HasServer(cfg: Config, o: Name) {
    o != [] && (o in cfg.located || HasServer(cfg, o[..|o| - 1]))
  }

  /** An object has a server exactly when it or some ancestor is located. */
  lemma {:induction false} HasServerIff(cfg: Config, o: Name)
    ensures HasServer(cfg, o) <==> exists n :: 0 < n <= |o| && o[..n] in cfg.located
  {
    if o != [] {
      var up := o[..|o| - 1];
      HasServerIff(cfg, up);
      assert o[..|o|] == o;
      if exists n :: 0 < n <= |o| && o[..n] in cfg.located {
        var n :| 0 < n <= |o| && o[..n] in cfg.located;
        if n < |o| { assert up[..n] == o[..n]; }
      }
      if HasServer(cfg, up) {
        var n :| 0 < n <= |up| && up[..n] in cfg.located;
        assert o[..n] == up[..n];
      }
    }
  }

  // ----- the two readings of the tree -----

  datatype Cut = Cut(local: seq<Device>, remote: set<Name>)

  function Join(x: Cut, y: Cut): Cut { Cut(x.local + y.local, x.remote + y.remote) }

  /** What DistCntxt::traverse collects for object o in a context rooted at root. */
  function Traverse(cfg: Config, root: Name, o: Name, a: Attr): Cut
    requires WellFormed(cfg)
    decreases cfg.depth - |o|, 1, 0
  {
    if HasServer(cfg, o) && o != root then Cut([], {o})
    else
      var src := SourceOf(cfg, o, a);
      Join(Cut(src.devs, {}), TraverseKids(cfg, root, o, a, src.kids))
  }

  function TraverseKids(cfg: Config, root: Name, o: Name, a: Attr, kids: seq<string>): Cut
    requires WellFormed(cfg) && (kids != [] ==> |o| < cfg.depth)
    decreases cfg.depth - |o|, 0, |kids|
  {
    if kids == [] then Cut([], {})
    else Join(Traverse(cfg, root, Child(o, kids[0]), a), TraverseKids(cfg, root, o, a, kids[1..]))
  }

  type Reading = (Device, Attr) -> real

  function SumDevs(val: Reading, a: Attr, devs: seq<Device>): real {
    if devs == [] then 0.0 else val(devs[0], a) + SumDevs(val, a, devs[1..])
  }

  /** The sum over all devices below an object, ignoring servers altogether. */
  function FlatSum(cfg: Config, val: Reading, o: Name, a: Attr): real
    requires WellFormed(cfg)
    decreases cfg.depth - |o|, 1, 0
  {
    var src := SourceOf(cfg, o, a);
    SumDevs(val, a, src.devs) + FlatKids(cfg, val, o, a, src.kids)
  }

  function FlatKids(cfg: Config, val: Reading, o: Name, a: Attr, kids: seq<string>): real
    requires WellFormed(cfg) && (kids != [] ==> |o| < cfg.depth)
    decreases cfg.depth - |o|, 0, |kids|
  {
    if kids == [] then 0.0 else FlatSum(cfg, val, Child(o, kids[0]), a) + FlatKids(cfg, val, o, a, kids[1..])
  }

  function SumNames(cfg: Config, val: Reading, a: Attr, names: seq<Name>): real
    requires WellFormed(cfg)
  {
    if names == [] then 0.0 else FlatSum(cfg, val, names[0], a) + SumNames(cfg, val, a, names[1..])
  }

  /** A fixed enumeration of a set (the sorted order of std::set is not modelled). */
  ghost function Listing(s: set<Name>): (l: seq<Name>)
    ensures multiset(l) == multiset(s) && |l| == |s|
    ensures forall x :: x in l <==> x in s
  {
    if s == {} then []
    else
      var x :| x in s;
      assert s == {x} + (s - {x});
      assert multiset(s) == multiset{x} + multiset(s - {x});
      [x] + Listing(s - {x})
  }

  // ----- sums over lists and sets of names -----

  lemma {:induction false} SumDevsAppend(val: Reading, a: Attr, x: seq<Device>, y: seq<Device>)
    ensures SumDevs(val, a, x + y) == SumDevs(val, a, x) + SumDevs(val, a, y)
  {
    if x == [] {
      assert x + y == y;
    } else {
      assert (x + y)[1..] == x[1..] + y;
      SumDevsAppend(val, a, x[1..], y);
    }
  }

  lemma SumDevsOne(val: Reading, a: Attr, d: Device)
    ensures SumDevs(val, a, [d]) == val(d, a)
  {
    assert [d][1..] == [];
  }

  /** Values as rows of one entry. */
  function Entries(values: seq<real>): (rows: seq<Gather.Row>)
    ensures |rows| == |values| && forall k :: 0 <= k < |rows| ==> rows[k] == [values[k]]
  {
    seq(|values|, k requires 0 <= k < |values| => [values[k]])
  }

  function Readings(val: Reading, a: Attr, devs: seq<Device>): (values: seq<real>)
    ensures |values| == |devs| && forall k :: 0 <= k < |devs| ==> values[k] == val(devs[k], a)
  {
    seq(|devs|, k requires 0 <= k < |devs| => val(devs[k], a))
  }

  /** The sum over devices is the column sum of their readings, as a router would add them up. */
  lemma {:induction false} SumDevsIsSum(val: Reading, a: Attr, devs: seq<Device>)
    ensures SumDevs(val, a, devs) == Gather.SumAt(Entries(Readings(val, a, devs)), 0)
  {
    var n := |devs| - 1;
    if devs != [] {
      SumDevsIsSum(val, a, devs[..n]);
      SumDevsAppend(val, a, devs[..n], [devs[n]]);
      SumDevsOne(val, a, devs[n]);
      assert devs[..n] + [devs[n]] == devs;
      var rows := Entries(Readings(val, a, devs));
      assert rows[..n] == Entries(Readings(val, a, devs[..n])) && rows[n + 1..] == [];
      Gather.SumAtRemove(rows, n, 0);
      assert rows[..n] + [] == rows[..n];
    }
  }

  lemma {:induction false} SumNamesAppend(cfg: Config, val: Reading, a: Attr, x: seq<Name>, y: seq<Name>)
    requires WellFormed(cfg)
    ensures SumNames(cfg, val, a, x + y) == SumNames(cfg, val, a, x) + SumNames(cfg, val, a, y)
  {
    if x == [] {
      assert x + y == y;
    } else {
      assert (x + y)[1..] == x[1..] + y;
      SumNamesAppend(cfg, val, a, x[1..], y);
    }
  }

  lemma {:induction false} SumNamesPermutation(cfg: Config, val: Reading, a: Attr, x: seq<Name>, y: seq<Name>)
    requires WellFormed(cfg) && multiset(x) == multiset(y)
    ensures SumNames(cfg, val, a, x) == SumNames(cfg, val, a, y)
  {
    if x == [] {
      assert |multiset(y)| == |y|;
    } else {
      assert x[0] in multiset(y);
      var k :| 0 <= k < |y| && y[k] == x[0];
      var rest := y[..k] + y[k + 1..];
      RemoveOne(x, y, k);
      SumNamesPermutation(cfg, val, a, x[1..], rest);
      hide WellFormed, FlatSum;
      assert y == y[..k] + ([y[k]] + y[k + 1..]);
      SumNamesAppend(cfg, val, a, y[..k], [y[k]] + y[k + 1..]);
      SumNamesAppend(cfg, val, a, y[..k], y[k + 1..]);
      assert ([y[k]] + y[k + 1..])[1..] == y[k + 1..];
    }
  }

  lemma RemoveOne(x: seq<Name>, y: seq<Name>, k: nat)
    requires x != [] && k < |y| && y[k] == x[0] && multiset(x) == multiset(y)
    ensures multiset(x[1..]) == multiset(y[..k] + y[k + 1..])
  {
    assert x == [x[0]] + x[1..];
    assert y == y[..k] + ([y[k]] + y[k + 1..]);
    var p, q := multiset(x[1..]), multiset(y[..k] + y[k + 1..]);
    assert multiset(x) == p + multiset{x[0]};
    assert multiset(y) == q + multiset{x[0]};
    assert p == (p + multiset{x[0]}) - multiset{x[0]};
    assert q == (q + multiset{x[0]}) - multiset{x[0]};
  }

  lemma SumDisjoint(cfg: Config, val: Reading, a: Attr, s: set<Name>, t: set<Name>)
    requires WellFormed(cfg) && s !! t
    ensures SumNames(cfg, val, a, Listing(s + t))
        == SumNames(cfg, val, a, Listing(s)) + SumNames(cfg, val, a, Listing(t))
  {
    SumNamesAppend(cfg, val, a, Listing(s), Listing(t));
    assert multiset(s + t) == multiset(s) + multiset(t);
    SumNamesPermutation(cfg, val, a, Listing(s + t), Listing(s) + Listing(t));
  }

  // ----- the cut loses nothing and repeats nothing -----

  /** Every object left to a server lies below the object read. */
  lemma {:induction false} RemoteBelow(cfg: Config, root: Name, o: Name, a: Attr, x: Name)
    requires WellFormed(cfg) && x in Traverse(cfg, root, o, a).remote
    ensures o <= x && HasServer(cfg, x)
    decreases cfg.depth - |o|, 1, 0
  {
    if !(HasServer(cfg, o) && o != root) {
      RemoteBelowKids(cfg, root, o, a, SourceOf(cfg, o, a).kids, x);
    }
  }

  lemma {:induction false} RemoteBelowKids(cfg: Config, root: Name, o: Name, a: Attr, kids: seq<string>, x: Name)
    requires WellFormed(cfg) && (kids != [] ==> |o| < cfg.depth)
    requires x in TraverseKids(cfg, root, o, a, kids).remote
    ensures HasServer(cfg, x)
    ensures exists k :: 0 <= k < |kids| && Child(o, kids[k]) <= x
    decreases cfg.depth - |o|, 0, |kids|
  {
    if x in Traverse(cfg, root, Child(o, kids[0]), a).remote {
      RemoteBelow(cfg, root, Child(o, kids[0]), a, x);
    } else {
      RemoteBelowKids(cfg, root, o, a, kids[1..], x);
      var k :| 0 <= k < |kids[1..]| && Child(o, kids[1..][k]) <= x;
      assert kids[k + 1] == kids[1..][k];
    }
  }

  lemma KidsDisjoint(cfg: Config, root: Name, o: Name, a: Attr, kids: seq<string>)
    requires WellFormed(cfg) && kids != [] && |o| < cfg.depth && Distinct(kids)
    ensures Traverse(cfg, root, Child(o, kids[0]), a).remote !! TraverseKids(cfg, root, o, a, kids[1..]).remote
  {
    forall x | x in Traverse(cfg, root, Child(o, kids[0]), a).remote
      ensures x !in TraverseKids(cfg, root, o, a, kids[1..]).remote
    {
      RemoteBelow(cfg, root, Child(o, kids[0]), a, x);
      assert x[|o|] == kids[0];
      forall k | 0 <= k < |kids[1..]| ensures !(Child(o, kids[1..][k]) <= x) {
        assert Child(o, kids[1..][k])[|o|] == kids[k + 1] != kids[0];
      }
      if x in TraverseKids(cfg, root, o, a, kids[1..]).remote {
        RemoteBelowKids(cfg, root, o, a, kids[1..], x);
      }
    }
  }

  /**
    However servers are placed, the local devices and the objects left to
    servers together hold every device below the object exactly once.
   */
  lemma {:induction false} CutPreservesSum(cfg: Config, val: Reading, root: Name, o: Name, a: Attr)
    requires WellFormed(cfg)
    ensures FlatSum(cfg, val, o, a)
         == SumDevs(val, a, Traverse(cfg, root, o, a).local) + SumNames(cfg, val, a,
             Listing(Traverse(cfg, root, o, a).remote))
    decreases cfg.depth - |o|, 1, 0
  {
    if HasServer(cfg, o) && o != root {
      var l := Listing({o});
      assert l == [o];
    } else {
      var src := SourceOf(cfg, o, a);
      var kids := TraverseKids(cfg, root, o, a, src.kids);
      CutPreservesKids(cfg, val, root, o, a, src.kids);
      SumDevsAppend(val, a, src.devs, kids.local);
      assert {} + kids.remote == kids.remote;
    }
  }

  lemma {:induction false} CutPreservesKids(cfg: Config, val: Reading, root: Name, o: Name, a: Attr, kids: seq<string>)
    requires WellFormed(cfg) && (kids != [] ==> |o| < cfg.depth) && Distinct(kids)
    ensures FlatKids(cfg, val, o, a, kids)
         == SumDevs(val, a, TraverseKids(cfg, root, o, a, kids).local)
            + SumNames(cfg, val, a, Listing(TraverseKids(cfg, root, o, a, kids).remote))
    decreases cfg.depth - |o|, 0, |kids|
  {
    if kids != [] {
      var x, y := Traverse(cfg, root, Child(o, kids[0]), a), TraverseKids(cfg, root, o, a, kids[1..]);
      CutPreservesSum(cfg, val, root, Child(o, kids[0]), a);
      CutPreservesKids(cfg, val, root, o, a, kids[1..]);
      SumDevsAppend(val, a, x.local, y.local);
      KidsDisjoint(cfg, root, o, a, kids);
      SumDisjoint(cfg, val, a, x.remote, y.remote);
    }
  }
}
