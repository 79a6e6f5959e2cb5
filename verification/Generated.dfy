/**
  The generated deployment as a whole: its names, and the routers as they start.
 */
module Generated {
  import opened Names
  import opened Serial
  import opened Circuits
  import opened Network
  import opened AppIds
  import opened Routers
  import opened TreeRouting
  import opened Numbering
  import opened RouteFile

  /** The levels of the machine, from the platform to the nodes. */
  function Levels(s: Site): seq<Foo>
    requires RouteFile.Valid(s)
  {
    [Foo(1, Cabs(s)), Foo(Cabs(s), s.perCab), Foo(Boards(s.k), s.k.perBoard), Foo(s.k.n, 0)]
  }

  lemma SelfCeil(c: nat)
    requires 0 < c
    ensures Ceil(c, c) == 1
  {
    DivUnique(c, c, 1, 0);
  }

  lemma LevelsRegular(s: Site)
    requires RouteFile.Valid(s)
    ensures 0 < Boards(s.k) && 0 < Cabs(s) && Regular(Levels(s))
  {
    BoardHasNode(s.k, 0);
    AllCabs(s);
    SelfCeil(Cabs(s));
    assert Boards(s.k) == Ceil(s.k.n, s.k.perBoard);
  }

  /** Cabinet c is accepted when it is one of the cabinets. */
  lemma CabAccepted(s: Site, c: nat)
    requires RouteFile.Valid(s)
    ensures Check(Levels(s), [0, c]) <==> c < Cabs(s)
    ensures Number(Levels(s), [0, c]) == c
  {
    LevelsRegular(s);
    ChildrenIs(Levels(s), 0, 0);
    assert [0, c][..1] == [0];
    assert Number(Levels(s), [0]) == 0;
  }

  lemma BoardAccepted(s: Site, c: nat, b: nat)
    requires RouteFile.Valid(s)
    ensures Check(Levels(s), [0, c, b]) <==> b < s.perCab && c * s.perCab + b < Boards(s.k)
    ensures Number(Levels(s), [0, c, b]) == c * s.perCab + b
  {
    LevelsRegular(s);
    CabAccepted(s, c);
    assert [0, c, b][..2] == [0, c];
    ChildrenIs(Levels(s), 1, c);
    InLevel(Levels(s), 1, c);
  }

  lemma NodeAccepted(s: Site, c: nat, b: nat, j: nat)
    requires RouteFile.Valid(s)
    ensures Check(Levels(s), [0, c, b, j]) <==>
              b < s.perCab && c * s.perCab + b < Boards(s.k)
              && j < s.k.perBoard && (c * s.perCab + b) * s.k.perBoard + j < s.k.n
  {
    LevelsRegular(s);
    BoardAccepted(s, c, b);
    assert [0, c, b, j][..3] == [0, c, b];
    ChildrenIs(Levels(s), 2, c * s.perCab + b);
    InLevel(Levels(s), 2, c * s.perCab + b);
  }

  lemma Entry(s: Site, c: nat, b: nat, pos: nat)
    requires RouteFile.Valid(s)
    ensures NameAt(c, b, pos) in Table(s) <==> b < s.perCab && Exists(s, c * s.perCab + b, pos)
  {
    var i := c * s.perCab + b;
    if b < s.perCab {
      DivUnique(i, s.perCab, c, b);
      if Exists(s, i, pos) {
        RouteTable(s, Boards(s.k));
        assert Before(s, Boards(s.k), 0, i, pos);
        assert ServerName(s, i, pos) in Table(s);
      }
    }
    if NameAt(c, b, pos) in Table(s) {
      var j, at := EntryServer(s, NameAt(c, b, pos));
      NamesDiffer(c, b, pos, CabOf(s, j), SlotOf(s, j), at);
      BoardFromCab(s, j);
    }
  }

  /** The configuration accepts the name of a board or node exactly when the route table has its server. */
  lemma AcceptedIffRouted(s: Site, c: nat, b: nat, j: nat)
    requires RouteFile.Valid(s)
    ensures Check(Levels(s), [0, c, b]) <==> BoardName(c, b) in Table(s)
    ensures Check(Levels(s), [0, c, b, j]) <==> NodeName(c, b, j) in Table(s)
  {
    BoardAccepted(s, c, b);
    NodeAccepted(s, c, b, j);
    Entry(s, c, b, 0);
    Entry(s, c, b, j + 1);
  }

  // ----- the network -----

  /** The router of each server, by the route table; names without an entry are never sent to. */
  function At(s: Site): Name -> Router
    requires RouteFile.Valid(s)
  {
    (m: Name) => if m in Table(s) then RtrId(Table(s)[m]) else 0
  }

  /** What every router reads is a table the routers' own requirements are met by. */
  lemma TableGood(s: Site, cfg: Cfg, id: Router)
    requires RouteFile.Valid(s) && s.k.n < NOBODY - 1 && id in Ids(s.k)
    ensures TableOk(id, Table(s), Place(Ids(s.k), PeersOf(s.k, id)), TreeTopo(s.k, cfg, At(s)))
  {
    RootHost(s.k);
    BoardHasNode(s.k, Boards(s.k) - 1);
    Grow(Boards(s.k) - 1, s.k.perBoard);
    forall m | m in Table(s)
      ensures Table(s)[m] <= MISS && ServerId(Table(s)[m]) != NOBODY && At(s)(m) in Ids(s.k)
    {
      var i, pos := EntryServer(s, m);
      ServerRouted(s, i, pos);
      Unpack(i, pos);
      assert IsId(s.k, i);
    }
    forall m, n | m in Table(s) && n in Table(s) && Table(s)[m] == Table(s)[n] ensures m == n
    {
      TableInjective(s, m, n);
    }
  }

  /** Every router starts out agreeing with the empty network. */
  lemma StartMirrors(s: Site, cfg: Cfg, id: Router)
    requires RouteFile.Valid(s) && s.k.n < NOBODY - 1 && id in Ids(s.k)
    ensures Mirrors(View(id, LinksFrom(InfosOf(s.k, NodeOf(s.k, id))), Table(s), map[], map[], map[]),
                    Place(Ids(s.k), PeersOf(s.k, id)), TreeTopo(s.k, cfg, At(s)), WInitial())
  {
    TableGood(s, cfg, id);
    TreeWired(s.k, cfg, At(s), id);
  }
}
