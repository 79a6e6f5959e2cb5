/**
  The configuration of a generated site: platform, cabinets, boards and nodes
  with the attributes the machine file gives them, located as the generator
  locates them.
 */
module SiteConfig {
  import opened Names
  import opened Numbering
  import opened RouteFile
  import opened Generated
  import opened AttrTree
  import opened Serving

  /** The attributes summed up from the nodes, those of the nodes, and the devices of a node for each. */
  datatype Plan = Plan(tree: set<Attr>, leaf: set<Attr>, devs: (Name, Attr) -> seq<Device>)

  ghost predicate PlanOk(p: Plan) {
    p.tree <= p.leaf && forall n, a :: a in p.leaf ==> p.devs(n, a) != []
  }

  const PLAT: Name := ["plat"]

  function CabName(c: nat): Name { ["plat", Tagged("cab", c)] }

  function TagAt(n: nat): string { if n == 1 then "cab" else if n == 2 then "board" else "node" }

  /** splitUp: the number behind the letters of one component. */
  function NumIn(comp: string, tag: string): nat { if |tag| <= |comp| then ParseInt(comp[|tag|..]) else 0 }

  function PathOf(n: Name): (path: Path)
    requires n != []
    ensures |path| == |n|
    decreases |n|
  {
    if |n| == 1 then [0] else PathOf(n[..|n| - 1]) + [NumIn(n[|n| - 1], TagAt(|n| - 1))]
  }

  /** calcNumChildren, as findAttrChildren counts with it. */
  function Count(s: Site, path: Path): nat
    requires RouteFile.Valid(s) && 0 < |path| <= 4
  {
    var c := Children(Levels(s), |path| - 1, Number(Levels(s), path));
    if c.None? then 0 else c.value
  }

  function KidList(tag: string, m: nat): (kids: seq<string>)
    ensures |kids| == m && forall k :: 0 <= k < m ==> kids[k] == Tagged(tag, k)
  {
    seq(m, k requires 0 <= k => Tagged(tag, k))
  }

  function SourceFor(s: Site, p: Plan, n: Name, a: Attr): Source
    requires RouteFile.Valid(s)
  {
    if 0 < |n| < 4 then Source([], KidList(TagAt(|n|), Count(s, PathOf(n)))) else Source(p.devs(n, a), [])
  }

  function Objects(s: Site): set<Name>
    requires RouteFile.Valid(s)
  {
    {PLAT} + (set c | 0 <= c < Cabs(s) :: CabName(c)) + Table(s).Keys
  }

  function Keys(s: Site, p: Plan): set<(Name, Attr)>
    requires RouteFile.Valid(s)
  {
    set n, a | n in Objects(s) && a in p.tree + p.leaf && (if |n| < 4 then a in p.tree else a in p.leaf) :: (n, a)
  }

  /** The configuration; the located objects are those that setLocations marks. */
  function ConfigOf(s: Site, p: Plan): Config
    requires RouteFile.Valid(s)
  {
    Config(map key | key in Keys(s, p) :: SourceFor(s, p, key.0, key.1), Table(s).Keys, 4)
  }

  // ----- names -----

  lemma NumBack(tag: string, k: nat)
    ensures NumIn(Tagged(tag, k), tag) == k
  {
    assert Tagged(tag, k)[|tag|..] == Digits(k);
    ParseDigits(k);
  }

  lemma CabPath(c: nat)
    ensures PathOf(CabName(c)) == [0, c]
  {
    NumBack("cab", c);
    assert CabName(c)[..1] == PLAT && PathOf(PLAT) == [0];
  }

  lemma BoardPath(c: nat, b: nat)
    ensures PathOf(BoardName(c, b)) == [0, c, b]
  {
    CabPath(c);
    NumBack("board", b);
    assert BoardName(c, b)[..2] == CabName(c);
  }

  /** An entry of the route table is a board or one of its nodes. */
  lemma EntryIs(s: Site, n: Name) returns (c: nat, b: nat)
    requires RouteFile.Valid(s) && n in Table(s)
    ensures BoardName(c, b) in Table(s)
    ensures (|n| == 3 && n == BoardName(c, b)) || (|n| == 4 && n[..3] == BoardName(c, b))
  {
    var i, pos := EntryServer(s, n);
    c, b := CabOf(s, i), SlotOf(s, i);
    BoardFromCab(s, i);
    Entry(s, c, b, 0);
  }

  lemma NotRouted(s: Site, n: Name)
    requires RouteFile.Valid(s) && |n| < 3
    ensures n !in Table(s)
  {
    if n in Table(s) { var c, b := EntryIs(s, n); }
  }

  /** The three kinds of objects with children, and the nodes. */
  lemma ObjectIs(s: Site, n: Name)
    requires RouteFile.Valid(s) && n in Objects(s)
    ensures n == PLAT || (exists c: nat :: c < Cabs(s) && n == CabName(c)) || n in Table(s)
    ensures 0 < |n| <= 4 && (|n| < 3 <==> n !in Table(s))
  {
    if n in Table(s) { var c, b := EntryIs(s, n); } else if n != PLAT {
      var c :| 0 <= c < Cabs(s) && n == CabName(c);
    }
  }

  // ----- children -----

  lemma PlatCount(s: Site, c: nat)
    requires RouteFile.Valid(s)
    ensures c < Count(s, [0]) <==> c < Cabs(s)
    ensures Count(s, [0]) == Cabs(s)
  {
    LevelsRegular(s);
    ChildrenIs(Levels(s), 0, 0);
    assert Number(Levels(s), [0]) == 0;
  }

  /** The children of a cabinet are the boards in the route table. */
  lemma CabKid(s: Site, c: nat, b: nat)
    requires RouteFile.Valid(s) && c < Cabs(s)
    ensures b < Count(s, [0, c]) <==> BoardName(c, b) in Table(s)
  {
    CabAccepted(s, c);
    AcceptedIffRouted(s, c, b, 0);
    assert [0, c, b][..2] == [0, c];
  }

  /** The children of a board are the nodes in the route table. */
  lemma BoardKid(s: Site, c: nat, b: nat, j: nat)
    requires RouteFile.Valid(s) && BoardName(c, b) in Table(s)
    ensures j < Count(s, [0, c, b]) <==> NodeName(c, b, j) in Table(s)
  {
    AcceptedIffRouted(s, c, b, j);
    assert [0, c, b, j][..3] == [0, c, b];
  }

  lemma BoardInCab(s: Site, c: nat, b: nat)
    requires RouteFile.Valid(s) && BoardName(c, b) in Table(s)
    ensures c < Cabs(s)
  {
    AcceptedIffRouted(s, c, b, 0);
    CabAccepted(s, c);
    assert [0, c, b][..2] == [0, c];
  }

  /** The child of an object is an object. */
  lemma ObjectKid(s: Site, n: Name, k: nat)
    requires RouteFile.Valid(s) && n in Objects(s) && 0 < |n| < 4 && k < Count(s, PathOf(n))
    ensures Child(n, Tagged(TagAt(|n|), k)) in Objects(s)
  {
    ObjectIs(s, n);
    if n == PLAT {
      PlatCount(s, k);
      assert Child(n, Tagged(TagAt(|n|), k)) == CabName(k);
    } else if n in Table(s) {
      BoardObject(s, n, k);
    } else {
      CabObject(s, n, k);
    }
  }

  lemma BoardObject(s: Site, n: Name, k: nat)
    requires RouteFile.Valid(s) && n in Table(s) && |n| == 3 && k < Count(s, PathOf(n))
    ensures Child(n, Tagged("node", k)) in Table(s)
  {
    hide Table, Count, PathOf;
    var c, b := EntryIs(s, n);
    BoardPath(c, b);
    BoardKid(s, c, b, k);
    assert Child(n, Tagged("node", k)) == NodeName(c, b, k);
  }

  lemma CabObject(s: Site, n: Name, k: nat)
    requires RouteFile.Valid(s) && (exists c: nat :: c < Cabs(s) && n == CabName(c)) && k < Count(s, PathOf(n))
    ensures Child(n, Tagged("board", k)) in Table(s)
  {
    hide Table, Count, PathOf, Cabs;
    var c: nat :| c < Cabs(s) && n == CabName(c);
    CabPath(c);
    CabKid(s, c, k);
    assert Child(n, Tagged("board", k)) == BoardName(c, k);
  }

  /** What the configuration says of an object. */
  lemma SourceIs(s: Site, p: Plan, n: Name, a: Attr)
    requires RouteFile.Valid(s) && n in Objects(s)
    ensures SourceOf(ConfigOf(s, p), n, a)
         == if (n, a) in Keys(s, p) then SourceFor(s, p, n, a) else Source([], [])
    ensures PlanOk(p) ==> ((n, a) in Keys(s, p) <==> if |n| < 4 then a in p.tree else a in p.leaf)
  {
  }

  lemma DistinctKids(tag: string, m: nat)
    ensures Distinct(KidList(tag, m))
  {
    forall i, j | 0 <= i < j < m ensures KidList(tag, m)[i] != KidList(tag, m)[j] {
      if Tagged(tag, i) == Tagged(tag, j) { TaggedOnce(tag, i, j); }
    }
  }

  lemma SiteWellFormed(s: Site, p: Plan)
    requires RouteFile.Valid(s)
    ensures WellFormed(ConfigOf(s, p))
  {
    var cfg := ConfigOf(s, p);
    forall o, a | (o, a) in cfg.sources
      ensures 0 < |o| && (cfg.sources[(o, a)].kids != [] ==> |o| < cfg.depth) && Distinct(cfg.sources[(o, a)].kids)
    {
      ObjectIs(s, o);
      DistinctKids(TagAt(|o|), if |o| < 4 then Count(s, PathOf(o)) else 0);
    }
  }

  // ----- every located object starts, and is fit for the attributes of the tree -----

  lemma SiteStarts(s: Site, p: Plan, x: Name)
    requires RouteFile.Valid(s) && PlanOk(p) && x in Table(s)
    ensures Starts(ConfigOf(s, p), x)
  {
    var cfg := ConfigOf(s, p);
    ObjectIs(s, x);
    forall a: Attr
      ensures SourceOf(cfg, x, a).devs == [] || Kids(cfg, x, a) == {}
      ensures Kids(cfg, x, a) == {} || (|x| < 4
          && Kids(cfg, x, a) == set k | k in KidList(TagAt(|x|), Count(s, PathOf(x))))
    {
      SourceIs(s, p, x, a);
      if SourceOf(cfg, x, a).kids == [] { assert Kids(cfg, x, a) == {}; }
    }
  }

  lemma {:induction false} SiteFit(s: Site, p: Plan, x: Name, attrs: seq<Attr>)
    requires RouteFile.Valid(s) && PlanOk(p) && WellFormed(ConfigOf(s, p)) && x in Table(s) && attrs != []
    requires |x| < 4 ==> forall i :: 0 <= i < |attrs| ==> attrs[i] in p.tree
    ensures Fit(ConfigOf(s, p), x, attrs)
    decreases 4 - |x|
  {
    var cfg := ConfigOf(s, p);
    SiteStarts(s, p, x);
    ObjectIs(s, x);
    forall i | 0 <= i < |attrs|
      ensures |x| < 4 ==> SourceOf(cfg, x, attrs[i]).kids == KidList(TagAt(|x|), Count(s, PathOf(x)))
      ensures |x| == 4 ==> SourceOf(cfg, x, attrs[i]).kids == []
    {
      SourceIs(s, p, x, attrs[i]);
    }
    assert Alike(cfg, x, attrs);
    forall k | k in SourceOf(cfg, x, attrs[0]).kids ensures Fit(cfg, Child(x, k), attrs) {
      NodeKid(s, p, x, attrs[0], k);
      SiteFit(s, p, Child(x, k), attrs);
    }
  }

  /** The kids of a located object are nodes in the table. */
  lemma NodeKid(s: Site, p: Plan, x: Name, a: Attr, k: string)
    requires RouteFile.Valid(s) && x in Table(s) && k in SourceOf(ConfigOf(s, p), x, a).kids
    ensures |x| == 3 && Child(x, k) in Table(s) && |Child(x, k)| == 4
  {
    ObjectIs(s, x);
    SourceIs(s, p, x, a);
    var m := Count(s, PathOf(x));
    var j :| 0 <= j < m && KidList(TagAt(|x|), m)[j] == k;
    ObjectKid(s, x, j);
    ObjectIs(s, Child(x, k));
  }

  /** The devices of all nodes can be read. */
  ghost predicate NodesWork(s: Site, p: Plan, ok: (Device, Attr) -> bool)
    requires RouteFile.Valid(s)
  {
    forall n, a :: n in Table(s) && |n| == 4 && a in p.leaf ==> AllOk(ok, a, p.devs(n, a))
  }

  lemma {:induction false} SiteWhole(s: Site, p: Plan, ok: (Device, Attr) -> bool, x: Name, attrs: seq<Attr>, i: nat)
    requires RouteFile.Valid(s) && PlanOk(p) && WellFormed(ConfigOf(s, p)) && x in Table(s) && i < |attrs|
        && NodesWork(s, p, ok)
    requires forall j :: 0 <= j < |attrs| ==> if |x| < 4 then attrs[j] in p.tree else attrs[j] in p.leaf
    ensures Whole(ConfigOf(s, p), ok, x, attrs, i)
    decreases 4 - |x|
  {
    var cfg := ConfigOf(s, p);
    ObjectIs(s, x);
    forall j | 0 <= j < |attrs| ensures |x| == 4 ==> Works(cfg, ok, x, attrs[j]) { SourceIs(s, p, x, attrs[j]); }
    SourceIs(s, p, x, attrs[i]);
    forall k | k in SourceOf(cfg, x, attrs[0]).kids ensures Whole(cfg, ok, Child(x, k), attrs, i) {
      NodeKid(s, p, x, attrs[0], k);
      SiteWhole(s, p, ok, Child(x, k), attrs, i);
    }
    if |x| == 4 {
      SourceIs(s, p, x, attrs[0]);
      assert Kids(cfg, x, attrs[0]) == {};
    }
  }
}
