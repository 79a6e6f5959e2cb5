/**
  Reads in a generated deployment of any size: what a context leaves to servers
  is in the route table, and a read of the platform is the sum over all nodes.
 */
module SiteReads {
  import opened Names
  import opened Circuits
  import opened Network
  import opened TreeRouting
  import opened Numbering
  import opened RouteFile
  import opened Generated
  import opened AttrTree
  import opened Serving
  import opened AppRead
  import opened EndToEnd
  import opened SiteConfig
  import opened SiteTotals

  /** Everything the network theorems ask for holds of a generated deployment, for its own configuration. */
  lemma SiteServes(s: Site, p: Plan, hw: Hardware, home: Client -> Router)
    requires RouteFile.Valid(s) && PlanOk(p)
    ensures WellFormed(ConfigOf(s, p)) && AllStart(ConfigOf(s, p))
    ensures var topo := TreeTopo(s.k, Deployment(ConfigOf(s, p), hw, home), At(s));
            Serves(topo, ConfigOf(s, p), hw) && topo.cfg.started == Table(s).Keys
  {
    SiteWellFormed(s, p);
    var cfg := Deployment(ConfigOf(s, p), hw, home);
    TreeSound(s.k, cfg, At(s));
    forall x | x in Table(s) ensures Starts(ConfigOf(s, p), x) && x != [] {
      SiteStarts(s, p, x);
    }
  }

  // ----- what a context leaves to servers -----

  lemma ServedHere(s: Site, p: Plan, n: Name)
    requires RouteFile.Valid(s) && n in Objects(s)
    ensures HasServer(ConfigOf(s, p), n) <==> n in Table(s)
  {
    HasServerIff(ConfigOf(s, p), n);
    ObjectIs(s, n);
    if n in Table(s) { assert n[..|n|] == n; }
    if n !in Table(s) {
      forall k | 0 < k <= |n| ensures n[..k] !in Table(s) { NotRouted(s, n[..k]); }
    }
  }

  lemma KidsAreObjects(s: Site, p: Plan, o: Name, a: Attr)
    requires RouteFile.Valid(s) && o in Objects(s)
    ensures forall k :: k in SourceOf(ConfigOf(s, p), o, a).kids ==> |o| < 4 && Child(o, k) in Objects(s)
  {
    ObjectIs(s, o);
    SourceIs(s, p, o, a);
    forall k | k in SourceOf(ConfigOf(s, p), o, a).kids ensures |o| < 4 && Child(o, k) in Objects(s) {
      var m := Count(s, PathOf(o));
      var j :| 0 <= j < m && KidList(TagAt(|o|), m)[j] == k;
      ObjectKid(s, o, j);
    }
  }

  /** Whatever context reads whatever object, the objects it leaves to servers are in the route table. */
  lemma {:induction false} LeftIsRouted(s: Site, p: Plan, root: Name, o: Name, a: Attr, x: Name)
    requires RouteFile.Valid(s) && WellFormed(ConfigOf(s, p)) && o in Objects(s)
    requires x in Traverse(ConfigOf(s, p), root, o, a).remote
    ensures x in Table(s)
    decreases 4 - |o|, 1, 0
  {
    ServedHere(s, p, o);
    KidsAreObjects(s, p, o, a);
    hide Objects, ConfigOf, Table;
    if !(HasServer(ConfigOf(s, p), o) && o != root) {
      KidsRouted(s, p, root, o, a, SourceOf(ConfigOf(s, p), o, a).kids, x);
    }
  }

  lemma {:induction false} KidsRouted(s: Site, p: Plan, root: Name, o: Name, a: Attr, kids: seq<string>, x: Name)
    requires RouteFile.Valid(s) && WellFormed(ConfigOf(s, p)) && (kids != [] ==> |o| < 4)
    requires forall k :: k in kids ==> Child(o, k) in Objects(s)
    requires x in TraverseKids(ConfigOf(s, p), root, o, a, kids).remote
    ensures x in Table(s)
    decreases 4 - |o|, 0, |kids|
  {
    if kids != [] {
      if x in Traverse(ConfigOf(s, p), root, Child(o, kids[0]), a).remote {
        LeftIsRouted(s, p, root, Child(o, kids[0]), a, x);
      } else {
        KidsRouted(s, p, root, o, a, kids[1..], x);
      }
    }
  }

  /** The boards below an object. */
  function Below(s: Site, o: Name): set<Name>
    requires RouteFile.Valid(s)
  {
    set n | n in Table(s).Keys && |n| == 3 && o <= n
  }

  /** A board below an object is below one of its kids. */
  lemma BoardKidOf(s: Site, p: Plan, o: Name, a: Attr, n: Name)
    requires RouteFile.Valid(s) && PlanOk(p) && o in Objects(s) && |o| < 3 && a in p.tree && n in Below(s, o)
    ensures n[|o|] in SourceOf(ConfigOf(s, p), o, a).kids
  {
    ObjectIs(s, o);
    SourceIs(s, p, o, a);
    var c, b := EntryIs(s, n);
    BoardInCab(s, c, b);
    var list := KidList(TagAt(|o|), Count(s, PathOf(o)));
    if o == PLAT {
      PlatCount(s, c);
      assert list[c] == n[1];
    } else {
      var d: nat :| d < Cabs(s) && o == CabName(d);
      assert o[1] == n[1];
      TaggedOnce("cab", c, d);
      CabPath(c);
      CabKid(s, c, b);
      assert list[b] == n[2];
    }
  }

  /** The boards below one of the listed kids. */
  function BelowKids(s: Site, o: Name, kids: seq<string>): set<Name>
    requires RouteFile.Valid(s) && |o| < 3
  {
    set n | n in Table(s).Keys && |n| == 3 && o <= n && n[|o|] in kids
  }

  /**
    What a context that is no server's own reads through servers above the boards: the boards, and
    no devices of its own.
   */
  lemma {:induction false} UpperCut(s: Site, p: Plan, root: Name, o: Name, a: Attr)
    requires RouteFile.Valid(s) && PlanOk(p) && WellFormed(ConfigOf(s, p)) && root !in Table(s)
    requires o in Objects(s) && |o| <= 3 && a in p.tree
    ensures Traverse(ConfigOf(s, p), root, o, a) == Cut([], Below(s, o))
    decreases 4 - |o|, 1, 0
  {
    ServedHere(s, p, o);
    ObjectIs(s, o);
    if |o| == 3 {
      OnlyItself(s, o);
    } else {
      var src := SourceOf(ConfigOf(s, p), o, a);
      KidsAreObjects(s, p, o, a);
      NoDevices(s, p, o, a);
      AllBelow(s, p, o, a);
      hide ConfigOf, Objects, Table, Below, BelowKids;
      UpperKids(s, p, root, o, a, src.kids);
      assert src.devs + [] == [] && {} + Below(s, o) == Below(s, o);
    }
  }

  lemma OnlyItself(s: Site, o: Name)
    requires RouteFile.Valid(s) && o in Table(s) && |o| == 3
    ensures Below(s, o) == {o}
  {
    forall n ensures n in Below(s, o) <==> n == o {
      if |n| == 3 && o <= n { assert n == n[..3] == o; }
    }
  }

  lemma NoDevices(s: Site, p: Plan, o: Name, a: Attr)
    requires RouteFile.Valid(s) && o in Objects(s) && |o| < 4
    ensures SourceOf(ConfigOf(s, p), o, a).devs == []
  {
    ObjectIs(s, o);
    SourceIs(s, p, o, a);
  }

  lemma AllBelow(s: Site, p: Plan, o: Name, a: Attr)
    requires RouteFile.Valid(s) && PlanOk(p) && o in Objects(s) && |o| < 3 && a in p.tree
    ensures BelowKids(s, o, SourceOf(ConfigOf(s, p), o, a).kids) == Below(s, o)
  {
    var kids := SourceOf(ConfigOf(s, p), o, a).kids;
    forall n | n in Below(s, o) ensures n[|o|] in kids { BoardKidOf(s, p, o, a, n); }
  }

  lemma {:induction false} UpperKids(s: Site, p: Plan, root: Name, o: Name, a: Attr, kids: seq<string>)
    requires RouteFile.Valid(s) && PlanOk(p) && WellFormed(ConfigOf(s, p)) && root !in Table(s) && |o| < 3
        && a in p.tree
    requires forall k :: k in kids ==> Child(o, k) in Objects(s)
    ensures TraverseKids(ConfigOf(s, p), root, o, a, kids) == Cut([], BelowKids(s, o, kids))
    decreases 4 - |o|, 0, |kids|
  {
    if kids == [] {
      assert BelowKids(s, o, kids) == {};
    } else {
      UpperCut(s, p, root, Child(o, kids[0]), a);
      UpperKids(s, p, root, o, a, kids[1..]);
      SplitKids(s, o, kids);
    }
  }

  lemma SplitKids(s: Site, o: Name, kids: seq<string>)
    requires RouteFile.Valid(s) && |o| < 3 && kids != []
    ensures BelowKids(s, o, kids) == Below(s, Child(o, kids[0])) + BelowKids(s, o, kids[1..])
  {
    forall n ensures n in BelowKids(s, o, kids) <==> n in Below(s, Child(o, kids[0])) + BelowKids(s, o, kids[1..]) {
      if n in Table(s) && |n| == 3 {
        assert Child(o, kids[0]) <= n <==> o <= n && n[|o|] == kids[0] by {
          if o <= n && n[|o|] == kids[0] { assert n[..|o| + 1] == Child(o, kids[0]); }
        }
        assert n[|o|] in kids <==> n[|o|] == kids[0] || n[|o|] in kids[1..];
      }
    }
  }

  /** There is a board below every object but the nodes. */
  lemma SomeBoard(s: Site, o: Name)
    requires RouteFile.Valid(s) && o in Objects(s) && |o| <= 3
    ensures Below(s, o) != {}
  {
    ObjectIs(s, o);
    LevelsRegular(s);
    if o == PLAT {
      FirstBoard(s, 0);
      assert BoardName(0, 0) in Below(s, o);
    } else if o in Table(s) {
      assert o in Below(s, o);
    } else {
      var c: nat :| c < Cabs(s) && o == CabName(c);
      FirstBoard(s, c);
      assert BoardName(c, 0) in Below(s, o);
    }
  }

  lemma FirstBoard(s: Site, c: nat)
    requires RouteFile.Valid(s) && c < Cabs(s)
    ensures BoardName(c, 0) in Table(s)
  {
    LevelsRegular(s);
    CabAccepted(s, c);
    InLevel(Levels(s), 1, c);
    ChildrenIs(Levels(s), 1, c);
    CabKid(s, c, 0);
  }

  // ----- reads by applications -----

  /** The attributes an object of the site has. */
  predicate HasAll(p: Plan, o: Name, attrs: seq<Attr>) {
    attrs != [] && forall i :: 0 <= i < |attrs| ==> if |o| < 4 then attrs[i] in p.tree else attrs[i] in p.leaf
  }

  /** The servers asked: the boards below, or the object's own. */
  function Targets(s: Site, o: Name): set<Name>
    requires RouteFile.Valid(s)
  {
    if |o| < 4 then Below(s, o) else {o}
  }

  lemma SiteInfo(s: Site, p: Plan, root: Name, o: Name, a: Attr)
    requires RouteFile.Valid(s) && PlanOk(p) && WellFormed(ConfigOf(s, p)) && root !in Table(s) && o in Objects(s)
    ensures InfoOf(ConfigOf(s, p), root, o, a)
         == if (if |o| < 4 then a in p.tree else a in p.leaf) then AttrInfo([], Some(Targets(s, o)))
             else AttrInfo([], None)
  {
    ObjectIs(s, o);
    SourceIs(s, p, o, a);
    ServedHere(s, p, o);
    if |o| < 4 && a in p.tree {
      UpperCut(s, p, root, o, a);
      SomeBoard(s, o);
    }
  }

  /** The asserts about any object hold in any such context, and the reads go to servers in the route table. */
  lemma SiteAsks(s: Site, p: Plan, root: Name, o: Name, attrs: seq<Attr>)
    requires RouteFile.Valid(s) && PlanOk(p) && WellFormed(ConfigOf(s, p)) && root !in Table(s) && o in Objects(s)
    requires HasAll(p, o, attrs)
    ensures var cfg := ConfigOf(s, p);
            && Constructs(cfg, root, o) && SameComm(cfg, root, o, attrs)
            && InfoOf(cfg, root, o, attrs[0]).comm == Some(Targets(s, o))
                  && AskedFor(cfg, root, o, attrs) == Targets(s, o)
    ensures forall n :: n in Targets(s, o) ==> n in Table(s)
  {
    forall a: Attr
      ensures InfoOf(ConfigOf(s, p), root, o, a)
           == if (if |o| < 4 then a in p.tree else a in p.leaf) then AttrInfo([], Some(Targets(s, o)))
               else AttrInfo([], None)
    {
      SiteInfo(s, p, root, o, a);
    }
    ObjectIs(s, o);
  }

  lemma SiteTargets(s: Site, p: Plan, ok: (Device, Attr) -> bool, o: Name, attrs: seq<Attr>, i: nat)
    requires RouteFile.Valid(s) && PlanOk(p) && WellFormed(ConfigOf(s, p)) && o in Objects(s) && HasAll(p, o, attrs)
    ensures forall n :: n in Targets(s, o) ==> Fit(ConfigOf(s, p), n, attrs)
    ensures NodesWork(s, p, ok) && i < |attrs| ==> AllWhole(ConfigOf(s, p), ok, Targets(s, o), attrs, i)
  {
    ObjectIs(s, o);
    forall n | n in Targets(s, o) ensures Fit(ConfigOf(s, p), n, attrs) { SiteFit(s, p, n, attrs); }
    if NodesWork(s, p, ok) && i < |attrs| {
      forall n | n in Targets(s, o) ensures Whole(ConfigOf(s, p), ok, n, attrs, i) { SiteWhole(s, p, ok, n, attrs, i); }
    }
  }

  /** The network of a generated site. */
  ghost function SiteTopo(s: Site, p: Plan, hw: Hardware, home: Client -> Router): Topo
    requires RouteFile.Valid(s)
  {
    SiteWellFormed(s, p);
    TreeTopo(s.k, Deployment(ConfigOf(s, p), hw, home), At(s))
  }

  /**
    With nothing assumed of the configuration: in every run of a generated site
    whose node devices work, an application's answer for a platform, cabinet,
    board or node is the flat sum. The servers its context asks are in the route
    table.
   */
  lemma SiteRead(s: Site, p: Plan, hw: Hardware, home: Client -> Router, trace: seq<WireStep>, c: nat, j: nat,
                 groups: Groups, attrs: seq<Attr>, g: nat, i: nat, root: Name, o: Name)
    requires RouteFile.Valid(s) && PlanOk(p) && NodesWork(s, p, hw.ok)
    requires root !in Table(s) && o in Objects(s) && HasAll(p, o, attrs) && g < |groups| && i < |attrs|
    requires Answered(SiteTopo(s, p, hw, home), trace, c, j, groups, attrs)
    requires groups[g] == Listing(Targets(s, o))
    ensures WellFormed(ConfigOf(s, p)) && AskedFor(ConfigOf(s, p), root, o, attrs) == Targets(s, o)
    ensures forall n :: n in groups[g] ==> n in Table(s)
    ensures var rows := RowsOfAnswer(SiteTopo(s, p, hw, home), trace, c, j);
            g < |rows| && i < |rows[g]| && rows[g][i] == FlatSum(ConfigOf(s, p), hw.val, o, attrs[i])
  {
    SiteServes(s, p, hw, home);
    SiteAsks(s, p, root, o, attrs);
    SiteTargets(s, p, hw.ok, o, attrs, i);
    ReadIsFlatSum(SiteTopo(s, p, hw, home), ConfigOf(s, p), hw, trace, c, j, groups, attrs, g, i, root, o);
  }

  /** A read at the platform is the sum over all nodes of the machine, whatever their number. */
  lemma PlatformRead(s: Site, p: Plan, hw: Hardware, home: Client -> Router, trace: seq<WireStep>, c: nat, j: nat,
                     groups: Groups, attrs: seq<Attr>, g: nat, i: nat)
    requires RouteFile.Valid(s) && PlanOk(p) && NodesWork(s, p, hw.ok)
    requires HasAll(p, PLAT, attrs) && g < |groups| && i < |attrs|
    requires Answered(SiteTopo(s, p, hw, home), trace, c, j, groups, attrs)
    requires groups[g] == Listing(Targets(s, PLAT))
    ensures var rows := RowsOfAnswer(SiteTopo(s, p, hw, home), trace, c, j);
            g < |rows| && i < |rows[g]| && rows[g][i] == Ranks(s, p, hw.val, attrs[i], 0, s.k.n)
  {
    NotRouted(s, PLAT);
    SiteRead(s, p, hw, home, trace, c, j, groups, attrs, g, i, PLAT, PLAT);
    PlatformIsAllNodes(s, p, hw.val, attrs[i]);
  }

  lemma SomeTarget(s: Site, o: Name)
    requires RouteFile.Valid(s) && o in Objects(s)
    ensures Listing(Targets(s, o)) != []
  {
    ObjectIs(s, o);
    if |o| < 4 { SomeBoard(s, o); }
    var n :| n in Targets(s, o);
    assert n in Listing(Targets(s, o));
  }

  lemma SiteRequest(s: Site, p: Plan, hw: Hardware, home: Client -> Router, attrs: seq<Attr>, o: Name)
    requires RouteFile.Valid(s) && PlanOk(p) && WellFormed(ConfigOf(s, p)) && o in Objects(s) && HasAll(p, o, attrs)
    ensures Serves(SiteTopo(s, p, hw, home), ConfigOf(s, p), hw) && AllStart(ConfigOf(s, p))
    ensures GroupFit(ConfigOf(s, p), [Listing(Targets(s, o))], attrs) && Usable([Listing(Targets(s, o))])
  {
    hide Serves, AllStart, ConfigOf, Objects, Table, Targets, Constructs, SameComm, InfoOf, Fit, AllWhole,
         Deployment, WellFormed, PlanOk, HasAll;
    SiteServes(s, p, hw, home);
    SiteTargets(s, p, hw.ok, o, attrs, 0);
    SomeTarget(s, o);
  }

  /** And such an answer does arrive. */
  lemma SiteAnswers(s: Site, p: Plan, hw: Hardware, home: Client -> Router, attrs: seq<Attr>, o: Name)
    returns (trace: seq<WireStep>, j: nat)
    requires RouteFile.Valid(s) && PlanOk(p) && o in Objects(s) && HasAll(p, o, attrs)
    ensures Answered(SiteTopo(s, p, hw, home), trace, 0, j, [Listing(Targets(s, o))], attrs)
  {
    SiteWellFormed(s, p);
    SiteRequest(s, p, hw, home, attrs, o);
    hide Serves, GroupFit, AllStart, ConfigOf, Objects, Table, WellFormed, PlanOk, Answered, SiteTopo, Usable;
    trace, j := AnswerArrives(SiteTopo(s, p, hw, home), ConfigOf(s, p), hw, [Listing(Targets(s, o))], attrs);
  }
}
