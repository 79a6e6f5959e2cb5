/** What the flat sum of a generated site is: every node of the machine, once, in order. */
module SiteTotals {
  import opened Names
  import opened Numbering
  import opened TreeRouting
  import opened RouteFile
  import opened Generated
  import opened AttrTree
  import opened SiteConfig

  /** What the devices of the node of rank x say together. */
  function NodeValue(s: Site, p: Plan, val: Reading, a: Attr, x: nat): real
    requires RouteFile.Valid(s)
  {
    SumDevs(val, a, p.devs(CalcNodeRoot(s, x), a))
  }

  /** The ranks from lo up to, not including, hi. */
  function Ranks(s: Site, p: Plan, val: Reading, a: Attr, lo: nat, hi: nat): real
    requires RouteFile.Valid(s)
    decreases hi
  {
    if hi <= lo then 0.0 else Ranks(s, p, val, a, lo, hi - 1) + NodeValue(s, p, val, a, hi - 1)
  }

  lemma {:induction false} RanksSplit(s: Site, p: Plan, val: Reading, a: Attr, lo: nat, mid: nat, hi: nat)
    requires RouteFile.Valid(s) && lo <= mid <= hi
    ensures Ranks(s, p, val, a, lo, hi) == Ranks(s, p, val, a, lo, mid) + Ranks(s, p, val, a, mid, hi)
    decreases hi
  {
    if mid < hi { RanksSplit(s, p, val, a, lo, mid, hi - 1); }
  }

  /** The first m kids of an object, one after the other. */
  function KidSum(cfg: Config, val: Reading, a: Attr, o: Name, tag: string, m: nat): real
    requires WellFormed(cfg)
  {
    if m == 0 then 0.0 else KidSum(cfg, val, a, o, tag, m - 1) + FlatSum(cfg, val, Child(o, Tagged(tag, m - 1)), a)
  }

  lemma {:induction false} FlatKidsIs(cfg: Config, val: Reading, a: Attr, o: Name, tag: string, m: nat, k: nat)
    requires WellFormed(cfg) && k <= m && (m != 0 ==> |o| < cfg.depth)
    ensures KidSum(cfg, val, a, o, tag, k) + FlatKids(cfg, val, o, a, KidList(tag, m)[k..])
        == KidSum(cfg, val, a, o, tag, m)
    decreases m - k
  {
    var rest := KidList(tag, m)[k..];
    if k < m {
      FlatKidsIs(cfg, val, a, o, tag, m, k + 1);
      assert rest[0] == Tagged(tag, k) && rest[1..] == KidList(tag, m)[k + 1..];
    } else {
      assert rest == [];
    }
  }

  /** The flat sum of an object with children. */
  lemma FlatIsKidSum(s: Site, p: Plan, val: Reading, o: Name, a: Attr)
    requires RouteFile.Valid(s) && PlanOk(p) && WellFormed(ConfigOf(s, p)) && o in Objects(s) && |o| < 4 && a in p.tree
    ensures 0 < |o| && FlatSum(ConfigOf(s, p), val, o, a) == KidSum(ConfigOf(s, p), val, a, o, TagAt(|o|),
        Count(s, PathOf(o)))
  {
    ObjectIs(s, o);
    SourceIs(s, p, o, a);
    var m := Count(s, PathOf(o));
    assert KidList(TagAt(|o|), m)[0..] == KidList(TagAt(|o|), m);
    FlatKidsIs(ConfigOf(s, p), val, a, o, TagAt(|o|), m, 0);
  }

  // ----- nodes -----

  /** The node's name by cabinet, board and place is its name by rank. */
  lemma NodeRank(s: Site, c: nat, b: nat, j: nat)
    requires RouteFile.Valid(s) && NodeName(c, b, j) in Table(s)
    ensures NodeName(c, b, j) == CalcNodeRoot(s, RankOf(s, BoardNo(s, c, b), j))
  {
    Entry(s, c, b, j + 1);
    assert j < s.k.perBoard && RankOf(s, BoardNo(s, c, b), j) < s.k.n;
    BoardNoSplits(s, c, b);
    hide Table, BoardNo, RankOf, CalcNodeRoot;
    RankSplits(s, BoardNo(s, c, b), j);
  }

  lemma FlatNode(s: Site, p: Plan, val: Reading, a: Attr, c: nat, b: nat, j: nat)
    requires RouteFile.Valid(s) && PlanOk(p) && WellFormed(ConfigOf(s, p)) && NodeName(c, b, j) in Table(s)
        && a in p.leaf
    ensures FlatSum(ConfigOf(s, p), val, NodeName(c, b, j), a)
        == NodeValue(s, p, val, a, RankOf(s, BoardNo(s, c, b), j))
  {
    hide RankOf, BoardNo, CalcNodeRoot;
    SourceIs(s, p, NodeName(c, b, j), a);
    NodeRank(s, c, b, j);
  }

  // ----- boards -----

  /** Where board i starts, if there are that many nodes. */
  function Start(s: Site, i: nat): nat
    requires RouteFile.Valid(s)
  {
    if RankOf(s, i, 0) <= s.k.n then RankOf(s, i, 0) else s.k.n
  }

  lemma {:induction false} BoardKids(s: Site, p: Plan, val: Reading, a: Attr, c: nat, b: nat, m: nat)
    requires RouteFile.Valid(s) && PlanOk(p) && WellFormed(ConfigOf(s, p)) && BoardName(c, b) in Table(s) && a in p.tree
    requires m <= Count(s, [0, c, b])
    ensures var i := BoardNo(s, c, b);
            && RankOf(s, i, 0) <= RankOf(s, i, m)
            && KidSum(ConfigOf(s, p), val, a, BoardName(c, b), "node", m) == Ranks(s, p, val, a, RankOf(s, i, 0),
                  RankOf(s, i, m))
  {
    hide BoardNo, ConfigOf, Table, CalcNodeRoot, Count, NodeValue, FlatSum, WellFormed;
    if m != 0 {
      BoardKids(s, p, val, a, c, b, m - 1);
      BoardKid(s, c, b, m - 1);
      assert Child(BoardName(c, b), Tagged("node", m - 1)) == NodeName(c, b, m - 1);
      FlatNode(s, p, val, a, c, b, m - 1);
      OneRank(s, BoardNo(s, c, b), m - 1);
    }
  }

  lemma OneRank(s: Site, i: nat, j: nat)
    requires RouteFile.Valid(s)
    ensures RankOf(s, i, j + 1) == RankOf(s, i, j) + 1 && RankOf(s, i, 0) <= RankOf(s, i, j)
  {
  }

  /** How many nodes a board has, and where it ends. */
  lemma BoardEnd(s: Site, c: nat, b: nat)
    requires RouteFile.Valid(s) && BoardName(c, b) in Table(s)
    ensures var i := BoardNo(s, c, b);
            Start(s, i) == RankOf(s, i, 0) <= Start(s, i + 1) == RankOf(s, i, Count(s, [0, c, b]))
  {
    var i := BoardNo(s, c, b);
    Entry(s, c, b, 0);
    BoardHasNode(s.k, i);
    BoardAccepted(s, c, b);
    LevelsRegular(s);
    ChildrenIs(Levels(s), 2, i);
    NextStart(i, s.k.perBoard);
  }

  /** A board is its ranks. */
  lemma FlatBoard(s: Site, p: Plan, val: Reading, a: Attr, c: nat, b: nat)
    requires RouteFile.Valid(s) && PlanOk(p) && WellFormed(ConfigOf(s, p)) && BoardName(c, b) in Table(s) && a in p.tree
    ensures var i := BoardNo(s, c, b);
            && Start(s, i) <= Start(s, i + 1)
            && FlatSum(ConfigOf(s, p), val, BoardName(c, b), a) == Ranks(s, p, val, a, Start(s, i), Start(s, i + 1))
  {
    hide BoardNo, ConfigOf, Table, CalcNodeRoot, Count, NodeValue, FlatSum, WellFormed, Ranks, KidSum, Start, RankOf;
    BoardPath(c, b);
    FlatIsKidSum(s, p, val, BoardName(c, b), a);
    BoardEnd(s, c, b);
    BoardKids(s, p, val, a, c, b, Count(s, [0, c, b]));
  }

  lemma NextStart(i: nat, q: nat)
    ensures (i + 1) * q == i * q + q
  {
  }

  // ----- cabinets and the platform -----

  lemma {:induction false} CabKids(s: Site, p: Plan, val: Reading, a: Attr, c: nat, m: nat)
    requires RouteFile.Valid(s) && PlanOk(p) && WellFormed(ConfigOf(s, p)) && c < Cabs(s) && a in p.tree
    requires m <= Count(s, [0, c])
    ensures Start(s, BoardNo(s, c, 0)) <= Start(s, BoardNo(s, c, m))
    ensures KidSum(ConfigOf(s, p), val, a, CabName(c), "board", m)
         == Ranks(s, p, val, a, Start(s, BoardNo(s, c, 0)), Start(s, BoardNo(s, c, m)))
  {
    hide ConfigOf, Table, CalcNodeRoot, Count, NodeValue, FlatSum, WellFormed, Start, RankOf, Cabs;
    if m != 0 {
      CabKids(s, p, val, a, c, m - 1);
      CabKid(s, c, m - 1);
      assert Child(CabName(c), Tagged("board", m - 1)) == BoardName(c, m - 1);
      FlatBoard(s, p, val, a, c, m - 1);
      assert BoardNo(s, c, m) == BoardNo(s, c, m - 1) + 1;
      RanksSplit(s, p, val, a, Start(s, BoardNo(s, c, 0)), Start(s, BoardNo(s, c, m - 1)), Start(s, BoardNo(s, c, m)));
    }
  }

  /** The first board that is not in the first m cabinets. */
  function FirstOf(s: Site, m: nat): nat
    requires RouteFile.Valid(s)
  {
    if BoardNo(s, m, 0) <= Boards(s.k) then BoardNo(s, m, 0) else Boards(s.k)
  }

  lemma CabEnd(s: Site, c: nat)
    requires RouteFile.Valid(s) && c < Cabs(s)
    ensures FirstOf(s, c) == BoardNo(s, c, 0) && FirstOf(s, c + 1) == BoardNo(s, c, Count(s, [0, c]))
  {
    CabAccepted(s, c);
    LevelsRegular(s);
    ChildrenIs(Levels(s), 1, c);
    InLevel(Levels(s), 1, c);
    NextStart(c, s.perCab);
  }

  lemma FlatCab(s: Site, p: Plan, val: Reading, a: Attr, c: nat)
    requires RouteFile.Valid(s) && PlanOk(p) && WellFormed(ConfigOf(s, p)) && c < Cabs(s) && a in p.tree
    ensures Start(s, FirstOf(s, c)) <= Start(s, FirstOf(s, c + 1))
    ensures FlatSum(ConfigOf(s, p), val, CabName(c), a)
         == Ranks(s, p, val, a, Start(s, FirstOf(s, c)), Start(s, FirstOf(s, c + 1)))
  {
    InObjects(s, c);
    hide ConfigOf, Table, CalcNodeRoot, Count, NodeValue, FlatSum, WellFormed, Start, RankOf, Cabs, FirstOf, BoardNo,
         Objects, KidSum, Ranks;
    CabPath(c);
    FlatIsKidSum(s, p, val, CabName(c), a);
    CabEnd(s, c);
    CabKids(s, p, val, a, c, Count(s, [0, c]));
  }

  lemma InObjects(s: Site, c: nat)
    requires RouteFile.Valid(s) && c < Cabs(s)
    ensures CabName(c) in Objects(s)
  {
  }

  lemma StartZero(s: Site)
    requires RouteFile.Valid(s)
    ensures Start(s, FirstOf(s, 0)) == 0
  {
  }

  lemma LastCab(s: Site, p: Plan, val: Reading, a: Attr, m: nat)
    requires RouteFile.Valid(s) && WellFormed(ConfigOf(s, p)) && m != 0
    ensures KidSum(ConfigOf(s, p), val, a, PLAT, "cab", m)
         == KidSum(ConfigOf(s, p), val, a, PLAT, "cab", m - 1) + FlatSum(ConfigOf(s, p), val, CabName(m - 1), a)
  {
    hide RouteFile.Valid, ConfigOf, FlatSum, WellFormed;
    assert Child(PLAT, Tagged("cab", m - 1)) == CabName(m - 1);
  }

  lemma {:induction false} PlatKids(s: Site, p: Plan, val: Reading, a: Attr, m: nat)
    requires RouteFile.Valid(s) && PlanOk(p) && WellFormed(ConfigOf(s, p)) && m <= Cabs(s) && a in p.tree
    ensures KidSum(ConfigOf(s, p), val, a, PLAT, "cab", m) == Ranks(s, p, val, a, 0, Start(s, FirstOf(s, m)))
  {
    if m == 0 { StartZero(s); }
    hide RouteFile.Valid, PlanOk, ConfigOf, Table, CalcNodeRoot, NodeValue, FlatSum, WellFormed, Start, RankOf, Cabs,
         FirstOf, BoardNo, Objects;
    if m != 0 {
      PlatKids(s, p, val, a, m - 1);
      FlatCab(s, p, val, a, m - 1);
      LastCab(s, p, val, a, m);
      hide Ranks, KidSum;
      RanksSplit(s, p, val, a, 0, Start(s, FirstOf(s, m - 1)), Start(s, FirstOf(s, m)));
    }
  }

  /** The flat sum of the platform is the sum over all nodes of the machine, each once. */
  lemma PlatformIsAllNodes(s: Site, p: Plan, val: Reading, a: Attr)
    requires RouteFile.Valid(s) && PlanOk(p) && WellFormed(ConfigOf(s, p)) && a in p.tree
    ensures FlatSum(ConfigOf(s, p), val, PLAT, a) == Ranks(s, p, val, a, 0, s.k.n)
  {
    FlatIsKidSum(s, p, val, PLAT, a);
    assert PathOf(PLAT) == [0];
    PlatCount(s, 0);
    PlatKids(s, p, val, a, Cabs(s));
    AllCabs(s);
    AllBoards(s);
  }

  lemma AllBoards(s: Site)
    requires RouteFile.Valid(s)
    ensures Start(s, Boards(s.k)) == s.k.n
  {
    BoardHasNode(s.k, Boards(s.k));
  }
}
