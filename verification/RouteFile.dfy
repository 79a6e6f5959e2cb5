/**
  The generated route file, the processes the generator starts, and the
  locations it configures: three enumerations of the same servers.
 */
module RouteFile {
  import opened Names
  import opened Serial
  import opened AppIds
  import opened Routers
  import opened TreeRouting
  import opened Numbering

  // ----- decimal numbers in names -----

  function DigitChar(d: nat): (c: char)
    requires d < 10
    ensures c as nat == '0' as nat + d
  {
    "0123456789"[d]
  }

  function DigitValue(c: char): nat { if '0' <= c <= '9' then c as nat - '0' as nat else 0 }

  function Digits(n: nat): (s: string)
    ensures s != []
  {
    if n < 10 then [DigitChar(n)] else Digits(n / 10) + [DigitChar(n % 10)]
  }

  function ParseInt(s: string): nat {
    if s == [] then 0 else ParseInt(s[..|s| - 1]) * 10 + DigitValue(s[|s| - 1])
  }

  lemma {:induction false} ParseDigits(n: nat)
    ensures ParseInt(Digits(n)) == n
  {
    if 10 <= n {
      ParseDigits(n / 10);
      assert Digits(n)[..|Digits(n)| - 1] == Digits(n / 10);
    } else {
      assert Digits(n)[..0] == [];
    }
  }

  function Tagged(tag: string, n: nat): string { tag + Digits(n) }

  lemma TaggedOnce(tag: string, a: nat, b: nat)
    requires Tagged(tag, a) == Tagged(tag, b)
    ensures a == b
  {
    assert Tagged(tag, a)[|tag|..] == Digits(a) && Tagged(tag, b)[|tag|..] == Digits(b);
    ParseDigits(a);
    ParseDigits(b);
  }

  // ----- the servers of a site -----

  /** Nodes, nodes per board and boards per cabinet. */
  datatype Site = Site(k: Machine, perCab: nat)

  predicate Valid(s: Site) { Runs(s.k) && 2 <= s.k.perBoard && 0 < s.perCab }

  function BoardName(cab: nat, board: nat): Name { ["plat", Tagged("cab", cab), Tagged("board", board)] }

  function NodeName(cab: nat, board: nat, node: nat): Name { BoardName(cab, board) + [Tagged("node", node)] }

  /** The cabinet of board i, and the board's place in it. */
  function CabOf(s: Site, i: nat): nat
    requires Valid(s)
  {
    i / s.perCab
  }

  function SlotOf(s: Site, i: nat): nat
    requires Valid(s)
  {
    i % s.perCab
  }

  lemma BoardFromCab(s: Site, i: nat)
    requires Valid(s)
    ensures i == CabOf(s, i) * s.perCab + SlotOf(s, i)
  {
  }

  /** Server pos of board i: the board's own for pos 0, that of node pos - 1 otherwise. */
  function ServerName(s: Site, i: nat, pos: nat): Name
    requires Valid(s)
  {
    NameAt(CabOf(s, i), SlotOf(s, i), pos)
  }

  function NameAt(cab: nat, board: nat, pos: nat): Name {
    if pos == 0 then BoardName(cab, board) else NodeName(cab, board, pos - 1)
  }

  predicate Exists(s: Site, i: nat, pos: nat)
    requires Valid(s)
  {
    i < Boards(s.k) && pos <= s.k.perBoard && (pos == 0 || i * s.k.perBoard + (pos - 1) < s.k.n)
  }

  lemma BoardNamesDiffer(c: nat, b: nat, d: nat, e: nat)
    requires BoardName(c, b) == BoardName(d, e)
    ensures c == d && b == e
  {
    assert BoardName(c, b)[1] == BoardName(d, e)[1] && BoardName(c, b)[2] == BoardName(d, e)[2];
    TaggedOnce("cab", c, d);
    TaggedOnce("board", b, e);
  }

  lemma NodeNamesDiffer(c: nat, b: nat, n: nat, d: nat, e: nat, m: nat)
    requires NodeName(c, b, n) == NodeName(d, e, m)
    ensures c == d && b == e && n == m
  {
    assert NodeName(c, b, n)[..3] == BoardName(c, b) && NodeName(d, e, m)[..3] == BoardName(d, e);
    BoardNamesDiffer(c, b, d, e);
    assert NodeName(c, b, n)[3] == NodeName(d, e, m)[3];
    TaggedOnce("node", n, m);
  }

  lemma NamesDiffer(c: nat, b: nat, pos: nat, d: nat, e: nat, at: nat)
    requires NameAt(c, b, pos) == NameAt(d, e, at)
    ensures c == d && b == e && pos == at
  {
    assert |NameAt(c, b, pos)| == if pos == 0 then 3 else 4;
    assert |NameAt(d, e, at)| == if at == 0 then 3 else 4;
    if pos == 0 { BoardNamesDiffer(c, b, d, e); } else { NodeNamesDiffer(c, b, pos - 1, d, e, at - 1); }
  }

  /** No two servers have the same name. */
  lemma ServerNameOnce(s: Site, i: nat, pos: nat, j: nat, at: nat)
    requires Valid(s) && ServerName(s, i, pos) == ServerName(s, j, at)
    ensures i == j && pos == at
  {
    NamesDiffer(CabOf(s, i), SlotOf(s, i), pos, CabOf(s, j), SlotOf(s, j), at);
    BoardFromCab(s, i);
    BoardFromCab(s, j);
  }

  // ----- the route file -----

  function BoardLines(s: Site, i: nat, m: nat): seq<Route>
    requires Valid(s)
  {
    if m == 0 then []
    else BoardLines(s, i, m - 1) + if Exists(s, i, m - 1) then [Route(ServerName(s, i, m - 1), i, m - 1)] else []
  }

  function RouteLines(s: Site, m: nat): seq<Route>
    requires Valid(s)
  {
    if m == 0 then [] else RouteLines(s, m - 1) + BoardLines(s, m - 1, s.k.perBoard + 1)
  }

  /** genRouteFile. */
  method GenRouteFile(s: Site) returns (lines: seq<Route>)
    requires Valid(s)
    ensures lines == RouteLines(s, Boards(s.k))
  {
    lines := [];
    for i := 0 to Boards(s.k)
      invariant lines == RouteLines(s, i)
    {
      BoardHasNode(s.k, i);
      if i * s.k.perBoard >= s.k.n { break; }
      lines := AddBoard(s, i, lines);
    }
  }

  /** The inner loop: the board's own server, then one for each node it has. */
  method AddBoard(s: Site, i: nat, before: seq<Route>) returns (lines: seq<Route>)
    requires Valid(s) && i < Boards(s.k)
    ensures lines == before + BoardLines(s, i, s.k.perBoard + 1)
  {
    var pos := 0;
    var cab, brd := CabOf(s, i), SlotOf(s, i);
    lines := before + [Route(BoardName(cab, brd), i, pos)];
    pos := pos + 1;
    FirstLine(s, i);
    for j := 0 to s.k.perBoard
      invariant lines == before + BoardLines(s, i, j + 1)
      invariant i * s.k.perBoard + j <= s.k.n ==> pos == j + 1
    {
      NextLine(s, i, j + 1, before);
      if i * s.k.perBoard + j < s.k.n {
        lines := lines + [Route(NodeName(cab, brd, j), i, pos)];
        pos := pos + 1;
      }
    }
  }

  lemma FirstLine(s: Site, i: nat)
    requires Valid(s) && i < Boards(s.k)
    ensures BoardLines(s, i, 1) == [Route(BoardName(CabOf(s, i), SlotOf(s, i)), i, 0)]
  {
    assert BoardLines(s, i, 0) == [];
  }

  lemma NextLine(s: Site, i: nat, m: nat, before: seq<Route>)
    requires Valid(s) && i < Boards(s.k) && 0 < m <= s.k.perBoard
    ensures before + BoardLines(s, i, m + 1)
         == if i * s.k.perBoard + (m - 1) < s.k.n
            then (before + BoardLines(s, i, m)) + [Route(NodeName(CabOf(s, i), SlotOf(s, i), m - 1), i, m)]
            else before + BoardLines(s, i, m)
  {
    if Exists(s, i, m) {
      Fold(before, BoardLines(s, i, m), [Route(ServerName(s, i, m), i, m)]);
    } else {
      assert BoardLines(s, i, m + 1) == BoardLines(s, i, m);
    }
  }

  /** Server pos of board j comes before server m of board i. */
  predicate Before(s: Site, i: nat, m: nat, j: nat, pos: nat)
    requires Valid(s)
  {
    Exists(s, j, pos) && (j < i || (j == i && pos < m))
  }

  ghost predicate IsServer(s: Site, i: nat, m: nat, name: Name)
    requires Valid(s)
  {
    exists j: nat, pos: nat :: Before(s, i, m, j, pos) && name == ServerName(s, j, pos)
  }

  /** The table holds exactly the servers before server m of board i, each with its own id. */
  ghost predicate Holds(s: Site, table: map<Name, nat>, i: nat, m: nat)
    requires Valid(s)
  {
    && (forall j: nat, pos: nat :: Before(s, i, m, j, pos) ==>
          ServerName(s, j, pos) in table && table[ServerName(s, j, pos)] == AppId(j, pos))
    && (forall name :: name in table ==> IsServer(s, i, m, name))
  }

  lemma TableOneMore(lines: seq<Route>, line: Route)
    ensures TableOf(lines + [line]) == TableOf(lines)[line.name := AppId(line.rtr, line.server)]
  {
    assert (lines + [line])[..|lines|] == lines;
  }

  lemma HoldsOneMore(s: Site, table: map<Name, nat>, i: nat, m: nat)
    requires Valid(s) && Exists(s, i, m) && Holds(s, table, i, m)
    ensures Holds(s, table[ServerName(s, i, m) := AppId(i, m)], i, m + 1)
  {
    var more := table[ServerName(s, i, m) := AppId(i, m)];
    forall j: nat, pos: nat | Before(s, i, m + 1, j, pos)
      ensures ServerName(s, j, pos) in more && more[ServerName(s, j, pos)] == AppId(j, pos)
    {
      if ServerName(s, j, pos) == ServerName(s, i, m) {
        ServerNameOnce(s, j, pos, i, m);
      } else {
        assert Before(s, i, m, j, pos);
      }
    }
    forall name | name in more ensures IsServer(s, i, m + 1, name) {
      if name in table { Wider(s, i, m, i, m + 1, name); } else { assert Before(s, i, m + 1, i, m); }
    }
  }

  lemma Wider(s: Site, i: nat, m: nat, j: nat, n: nat, name: Name)
    requires Valid(s) && IsServer(s, i, m, name)
    requires forall a: nat, pos: nat :: Before(s, i, m, a, pos) ==> Before(s, j, n, a, pos)
    ensures IsServer(s, j, n, name)
  {
    var a: nat, pos: nat :| Before(s, i, m, a, pos) && name == ServerName(s, a, pos);
    assert Before(s, j, n, a, pos);
  }

  /** The same servers, counted differently. */
  lemma HoldsSame(s: Site, table: map<Name, nat>, i: nat, m: nat, j: nat, n: nat)
    requires Valid(s) && Holds(s, table, i, m)
    requires forall a: nat, pos: nat :: Before(s, i, m, a, pos) <==> Before(s, j, n, a, pos)
    ensures Holds(s, table, j, n)
  {
    forall name | name in table ensures IsServer(s, j, n, name) { Wider(s, i, m, j, n, name); }
  }

  lemma {:induction false} BoardTable(s: Site, i: nat, m: nat, before: seq<Route>)
    requires Valid(s) && i < Boards(s.k) && Holds(s, TableOf(before), i, 0)
    ensures Holds(s, TableOf(before + BoardLines(s, i, m)), i, m)
  {
    if m == 0 {
      assert before + [] == before;
    } else {
      BoardTable(s, i, m - 1, before);
      var sofar := before + BoardLines(s, i, m - 1);
      if Exists(s, i, m - 1) {
        var line := Route(ServerName(s, i, m - 1), i, m - 1);
        Fold(before, BoardLines(s, i, m - 1), [line]);
        TableOneMore(sofar, line);
        HoldsOneMore(s, TableOf(sofar), i, m - 1);
      } else {
        assert BoardLines(s, i, m) == BoardLines(s, i, m - 1);
        HoldsSame(s, TableOf(sofar), i, m - 1, i, m);
      }
    }
  }

  lemma {:induction false} RouteTable(s: Site, m: nat)
    requires Valid(s) && m <= Boards(s.k)
    ensures Holds(s, TableOf(RouteLines(s, m)), m, 0)
  {
    if m != 0 {
      var i := m - 1;
      RouteTable(s, i);
      BoardTable(s, i, s.k.perBoard + 1, RouteLines(s, i));
      assert RouteLines(s, m) == RouteLines(s, i) + BoardLines(s, i, s.k.perBoard + 1);
      BoardDone(s, i, s.k.perBoard + 1, m);
      HoldsSame(s, TableOf(RouteLines(s, m)), i, s.k.perBoard + 1, m, 0);
    }
  }

  lemma BoardDone(s: Site, i: nat, w: nat, m: nat)
    requires Valid(s) && w == s.k.perBoard + 1 && m == i + 1
    ensures forall a: nat, pos: nat :: Before(s, i, w, a, pos) <==> Before(s, m, 0, a, pos)
  {
  }

  /** The table every router reads from the generated file. */
  function Table(s: Site): map<Name, nat>
    requires Valid(s)
  {
    TableOf(RouteLines(s, Boards(s.k)))
  }

  /** Each server has its own entry, under the number of its board. */
  lemma ServerRouted(s: Site, i: nat, pos: nat)
    requires Valid(s) && Exists(s, i, pos) && s.k.n < NOBODY
    ensures var name := ServerName(s, i, pos);
            && name in Table(s) && Table(s)[name] == AppId(i, pos)
            && RtrId(Table(s)[name]) == i && ServerId(Table(s)[name]) == pos && pos < NOBODY
  {
    RouteTable(s, Boards(s.k));
    assert Before(s, Boards(s.k), 0, i, pos);
    IdsFit(s, i, pos);
    Unpack(i, pos);
  }

  lemma EntryServer(s: Site, name: Name) returns (i: nat, pos: nat)
    requires Valid(s) && name in Table(s)
    ensures Exists(s, i, pos) && name == ServerName(s, i, pos)
  {
    RouteTable(s, Boards(s.k));
    assert IsServer(s, Boards(s.k), 0, name);
    i, pos :| Before(s, Boards(s.k), 0, i, pos) && name == ServerName(s, i, pos);
  }

  lemma IdsFit(s: Site, i: nat, pos: nat)
    requires Valid(s) && Exists(s, i, pos) && s.k.n < NOBODY
    ensures i < NOBODY && pos <= s.k.n && Boards(s.k) <= s.k.n
  {
    BoardHasNode(s.k, Boards(s.k) - 1);
    BoardHasNode(s.k, i);
    Grow(Boards(s.k) - 1, s.k.perBoard);
    Grow(i, s.k.perBoard);
  }

  lemma Grow(a: nat, p: nat)
    requires 0 < p
    ensures a <= a * p
  {
  }

  // ----- the processes -----

  /** calcBoardRoot. */
  function CalcBoardRoot(s: Site, node: nat): Name
    requires Valid(s)
  {
    BoardName(node / (s.k.perBoard * s.perCab), node / s.k.perBoard % s.perCab)
  }

  /** calcNodeRoot. */
  function CalcNodeRoot(s: Site, node: nat): Name
    requires Valid(s)
  {
    CalcBoardRoot(s, node) + [Tagged("node", node % s.k.perBoard)]
  }

  /** rtrHost of configNode and configBoard. */
  function RtrHost(s: Site, node: nat): nat
    requires Valid(s)
  {
    node / s.k.perBoard * s.k.perBoard
  }

  lemma RootsAre(s: Site, node: nat)
    requires Valid(s) && node < s.k.n
    ensures var p := s.k.perBoard;
            && CalcBoardRoot(s, node) == ServerName(s, node / p, 0) && Exists(s, node / p, 0)
            && CalcNodeRoot(s, node) == ServerName(s, node / p, node % p + 1) && Exists(s, node / p, node % p + 1)
  {
    var p := s.k.perBoard;
    DivDiv(node, p, s.perCab);
    assert node == (node / p) * p + node % p;
    BoardHasNode(s.k, node / p);
  }

  function BoardNo(s: Site, c: nat, b: nat): nat { c * s.perCab + b }

  function RankOf(s: Site, i: nat, j: nat): nat
    requires Valid(s)
  {
    i * s.k.perBoard + j
  }

  lemma BoardNoSplits(s: Site, c: nat, b: nat)
    requires Valid(s) && b < s.perCab
    ensures CabOf(s, BoardNo(s, c, b)) == c && SlotOf(s, BoardNo(s, c, b)) == b
  {
    DivUnique(BoardNo(s, c, b), s.perCab, c, b);
  }

  /** Node j of board i has that rank, and the names that go with it. */
  lemma RankSplits(s: Site, i: nat, j: nat)
    requires Valid(s) && j < s.k.perBoard && RankOf(s, i, j) < s.k.n
    ensures RankOf(s, i, j) % s.k.perBoard == j
    ensures CalcBoardRoot(s, RankOf(s, i, j)) == ServerName(s, i, 0)
    ensures CalcNodeRoot(s, RankOf(s, i, j)) == ServerName(s, i, j + 1)
  {
    var x := RankOf(s, i, j);
    DivUnique(x, s.k.perBoard, i, j);
    hide RankOf, CalcBoardRoot, CalcNodeRoot, ServerName, Exists;
    RootsAre(s, x);
  }

  lemma HostRuns(s: Site, node: nat)
    requires Valid(s) && node < s.k.n
    ensures IsRouter(s.k, RtrHost(s, node)) && RouterIdOf(s.k, RtrHost(s, node)) == node / s.k.perBoard
  {
    var i := node / s.k.perBoard;
    assert node == i * s.k.perBoard + node % s.k.perBoard;
    BoardHasNode(s.k, i);
    LeafHost(s.k, i);
  }

  /**
    Every server the generator starts, a node's or a board's, has its root in the
    route table, under the id of the router that runs on the host it connects to.
   */
  lemma PlacementRouted(s: Site, node: nat)
    requires Valid(s) && node < s.k.n && s.k.n < NOBODY
    ensures IsRouter(s.k, RtrHost(s, node))
    ensures CalcNodeRoot(s, node) in Table(s)
        && RtrId(Table(s)[CalcNodeRoot(s, node)]) == RouterIdOf(s.k, RtrHost(s, node))
    ensures CalcBoardRoot(s, node) in Table(s)
        && RtrId(Table(s)[CalcBoardRoot(s, node)]) == RouterIdOf(s.k, RtrHost(s, node))
  {
    var i, j := node / s.k.perBoard, node % s.k.perBoard;
    RootsAre(s, node);
    HostRuns(s, node);
    ServerRouted(s, i, 0);
    ServerRouted(s, i, j + 1);
  }

  /** Every entry of the table belongs to a server the generator starts. */
  lemma TableStarted(s: Site, name: Name) returns (node: nat)
    requires Valid(s) && name in Table(s)
    ensures node < s.k.n
    ensures name == CalcNodeRoot(s, node) || (node % s.k.perBoard == 0 && name == CalcBoardRoot(s, node))
  {
    var i, pos := EntryServer(s, name);
    var j := if pos == 0 then 0 else pos - 1;
    node := RankOf(s, i, j);
    ExistsRank(s, i, pos);
    hide RankOf, CalcBoardRoot, CalcNodeRoot, ServerName, Exists, Table;
    RankSplits(s, i, j);
  }

  lemma ExistsRank(s: Site, i: nat, pos: nat)
    requires Valid(s) && Exists(s, i, pos)
    ensures var j := if pos == 0 then 0 else pos - 1; j < s.k.perBoard && RankOf(s, i, j) < s.k.n
  {
    BoardHasNode(s.k, i);
  }

  /** The table never maps two names to one id. */
  lemma TableInjective(s: Site, a: Name, b: Name)
    requires Valid(s) && s.k.n < NOBODY && a in Table(s) && b in Table(s) && Table(s)[a] == Table(s)[b]
    ensures a == b
  {
    var i, pos := EntryServer(s, a);
    var j, at := EntryServer(s, b);
    ServerRouted(s, i, pos);
    ServerRouted(s, j, at);
  }

  // ----- the locations -----

  function Cabs(s: Site): nat
    requires Valid(s)
  {
    Ceil(Boards(s.k), s.perCab)
  }

  ghost predicate Marks(s: Site, marked: set<Name>, i: nat, m: nat)
    requires Valid(s)
  {
    forall name :: name in marked <==> IsServer(s, i, m, name)
  }

  /** setLocations marks exactly the names of the route table. */
  method SetLocations(s: Site) returns (marked: set<Name>)
    requires Valid(s)
    ensures forall name :: name in marked <==> name in Table(s)
  {
    marked := {};
    assert Marks(s, marked, 0, 0);
    for cab := 0 to Cabs(s)
      invariant Marks(s, marked, cab * s.perCab, 0)
    {
      NextCab(cab, s.perCab);
      for brd := 0 to s.perCab
        invariant Marks(s, marked, cab * s.perCab + brd, 0)
      {
        if cab * s.perCab + brd < Boards(s.k) {
          marked := MarkBoard(s, cab, brd, marked);
        } else {
          MarksSame(s, marked, cab * s.perCab + brd, 0, cab * s.perCab + brd + 1, 0);
        }
      }
    }
    AllCabs(s);
    MarksSame(s, marked, Cabs(s) * s.perCab, 0, Boards(s.k), 0);
    MarksTable(s, marked);
  }

  lemma MarksTable(s: Site, marked: set<Name>)
    requires Valid(s) && Marks(s, marked, Boards(s.k), 0)
    ensures forall name :: name in marked <==> name in Table(s)
  {
    RouteTable(s, Boards(s.k));
    forall name | name in marked ensures name in Table(s) {
      var j: nat, pos: nat :| Before(s, Boards(s.k), 0, j, pos) && name == ServerName(s, j, pos);
    }
  }

  lemma MarksSame(s: Site, marked: set<Name>, i: nat, m: nat, j: nat, n: nat)
    requires Valid(s) && Marks(s, marked, i, m)
    requires forall a: nat, pos: nat :: Before(s, i, m, a, pos) <==> Before(s, j, n, a, pos)
    ensures Marks(s, marked, j, n)
  {
    forall name ensures IsServer(s, i, m, name) <==> IsServer(s, j, n, name) {
      if IsServer(s, i, m, name) { Wider(s, i, m, j, n, name); }
      if IsServer(s, j, n, name) { Wider(s, j, n, i, m, name); }
    }
  }

  lemma MarksOneMore(s: Site, marked: set<Name>, i: nat, m: nat)
    requires Valid(s) && Marks(s, marked, i, m) && Exists(s, i, m)
    ensures Marks(s, marked + {ServerName(s, i, m)}, i, m + 1)
  {
    forall name ensures name in marked + {ServerName(s, i, m)} <==> IsServer(s, i, m + 1, name) {
      if name == ServerName(s, i, m) { assert Before(s, i, m + 1, i, m); }
      if name in marked { Wider(s, i, m, i, m + 1, name); }
      if IsServer(s, i, m + 1, name) && name != ServerName(s, i, m) {
        var a: nat, pos: nat :| Before(s, i, m + 1, a, pos) && name == ServerName(s, a, pos);
        assert Before(s, i, m, a, pos);
      }
    }
  }

  lemma NextCab(cab: nat, perCab: nat)
    ensures (cab + 1) * perCab == cab * perCab + perCab
  {
  }

  lemma AllCabs(s: Site)
    requires Valid(s)
    ensures Boards(s.k) <= Cabs(s) * s.perCab
  {
    var b := Boards(s.k);
    assert b == (b / s.perCab) * s.perCab + b % s.perCab;
    NextCab(b / s.perCab, s.perCab);
  }

  /** The inner part of setLocations: one board and its nodes. */
  method MarkBoard(s: Site, cab: nat, brd: nat, before: set<Name>) returns (marked: set<Name>)
    requires Valid(s) && brd < s.perCab && cab * s.perCab + brd < Boards(s.k)
    requires Marks(s, before, cab * s.perCab + brd, 0)
    ensures Marks(s, marked, cab * s.perCab + brd + 1, 0)
  {
    ghost var i := BoardNo(s, cab, brd);
    BoardNoSplits(s, cab, brd);
    MarksBoard(s, before, cab, brd);
    marked := before + {BoardName(cab, brd)};
    hide BoardNo, Marks, RankOf;
    for node := 0 to s.k.perBoard
      invariant Marks(s, marked, i, node + 1)
    {
      marked := MarkNode(s, marked, cab, brd, node);
    }
    MarksEnd(s, marked, cab, brd);
  }

  /** One turn of the loop over the nodes of a board. */
  method MarkNode(s: Site, before: set<Name>, cab: nat, brd: nat, node: nat) returns (marked: set<Name>)
    requires Valid(s) && brd < s.perCab && BoardNo(s, cab, brd) < Boards(s.k) && node < s.k.perBoard
    requires Marks(s, before, BoardNo(s, cab, brd), node + 1)
    ensures Marks(s, marked, BoardNo(s, cab, brd), node + 2)
  {
    var x := cab * s.perCab * s.k.perBoard + brd * s.k.perBoard + node;
    NodeNumber(cab, brd, s.perCab, s.k.perBoard);
    MarksNode(s, before, cab, brd, node, x);
    marked := if x < s.k.n then before + {NodeName(cab, brd, node)} else before;
  }

  lemma MarksBoard(s: Site, before: set<Name>, cab: nat, brd: nat)
    requires Valid(s) && brd < s.perCab && BoardNo(s, cab, brd) < Boards(s.k)
        && Marks(s, before, BoardNo(s, cab, brd), 0)
    ensures Marks(s, before + {BoardName(cab, brd)}, BoardNo(s, cab, brd), 1)
  {
    BoardNoSplits(s, cab, brd);
    hide BoardNo;
    MarksOneMore(s, before, BoardNo(s, cab, brd), 0);
  }

  lemma MarksNode(s: Site, marked: set<Name>, cab: nat, brd: nat, node: nat, x: int)
    requires Valid(s) && brd < s.perCab && BoardNo(s, cab, brd) < Boards(s.k) && node < s.k.perBoard
    requires x == RankOf(s, BoardNo(s, cab, brd), node)
    requires Marks(s, marked, BoardNo(s, cab, brd), node + 1)
    ensures Marks(s, if x < s.k.n then marked + {NodeName(cab, brd, node)} else marked, BoardNo(s, cab, brd), node + 2)
  {
    var i := BoardNo(s, cab, brd);
    BoardNoSplits(s, cab, brd);
    hide BoardNo, Marks;
    if x < s.k.n { MarksOneMore(s, marked, i, node + 1); } else { MarksSame(s, marked, i, node + 1, i, node + 2); }
  }

  lemma MarksEnd(s: Site, marked: set<Name>, cab: nat, brd: nat)
    requires Valid(s) && Marks(s, marked, BoardNo(s, cab, brd), s.k.perBoard + 1)
    ensures Marks(s, marked, cab * s.perCab + brd + 1, 0)
  {
    MarksSame(s, marked, BoardNo(s, cab, brd), s.k.perBoard + 1, BoardNo(s, cab, brd) + 1, 0);
  }

  lemma NodeNumber(cab: nat, brd: nat, perCab: nat, perBoard: nat)
    ensures cab * perCab * perBoard + brd * perBoard == (cab * perCab + brd) * perBoard
  {
  }
}
