/**
  The router tree the generator builds: one leaf router on the first node of
  every board and a root router on one node of the first board. Any router
  reaches any other in at most two hops.
 */
module TreeRouting {
  import opened Names
  import opened Circuits
  import opened Network
  import opened Routers
  import opened Serial

  /** A run of the daemons on n nodes. */
  datatype Machine = Machine(n: nat, perBoard: nat)

  predicate Runs(k: Machine) { 0 < k.n && 0 < k.perBoard }

  /** rootRtr. */
  function RootNode(k: Machine): nat
    requires Runs(k)
  {
    (if k.n < k.perBoard then k.n else k.perBoard) - 1
  }

  /** numLinks, numBoards: the quotient rounded up. */
  function Boards(k: Machine): nat
    requires Runs(k)
  {
    k.n / k.perBoard + if k.n % k.perBoard != 0 then 1 else 0
  }

  function RootId(k: Machine): nat
    requires Runs(k)
  {
    k.n / k.perBoard + if k.n > 1 && k.n % k.perBoard != 0 then 1 else 0
  }

  /** im_a_rtr. */
  predicate IsRouter(k: Machine, node: nat)
    requires Runs(k)
  {
    node < k.n && (node == RootNode(k) || node % k.perBoard == 0)
  }

  /** The routerId a router is started with. */
  function RouterIdOf(k: Machine, node: nat): nat
    requires Runs(k)
  {
    if node == RootNode(k) then RootId(k) else node / k.perBoard
  }

  /** A board number i has at least one node exactly when i < Boards. */
  lemma BoardHasNode(k: Machine, i: nat)
    requires Runs(k)
    ensures i < Boards(k) <==> i * k.perBoard < k.n
  {
    var p := k.perBoard;
    assert k.n == (k.n / p) * p + k.n % p;
    if i < Boards(k) {
      Times(i, Boards(k) - 1, p);
    } else {
      Times(Boards(k), i, p);
      assert (k.n / p + 1) * p == (k.n / p) * p + p;
    }
  }

  lemma Times(a: nat, b: nat, p: nat)
    requires a <= b
    ensures a * p <= b * p
  {
  }

  lemma FirstOfBoard(i: nat, p: nat)
    requires 0 < p
    ensures i * p / p == i && i * p % p == 0
  {
    DivUnique(i * p, p, i, 0);
  }

  /** Router id i < Boards is hosted: some node runs a router with that id. */
  ghost predicate Hosted(k: Machine, id: nat)
    requires Runs(k)
  {
    exists node :: IsRouter(k, node) && RouterIdOf(k, node) == id
  }

  /**
    Every board has its router exactly when boards have room for two nodes: with
    one node per board the root router takes the place of leaf router 0.
   */
  lemma BoardsHostedIff(k: Machine)
    requires Runs(k)
    ensures (forall i :: 0 <= i < Boards(k) ==> Hosted(k, i)) <==> 2 <= k.perBoard
  {
    if 2 <= k.perBoard {
      forall i | 0 <= i < Boards(k) ensures Hosted(k, i) { LeafHost(k, i); }
    } else {
      assert RootNode(k) == 0 && RootId(k) == k.n;
      BoardHasNode(k, 0);
      assert 0 < Boards(k);
      assert forall node {:trigger IsRouter(k, node)} :: IsRouter(k, node) ==> RouterIdOf(k, node) != 0;
      assert !Hosted(k, 0);
    }
  }

  /** The first node of board i runs the router with id i. */
  lemma LeafHost(k: Machine, i: nat)
    requires Runs(k) && 2 <= k.perBoard && i < Boards(k)
    ensures IsRouter(k, i * k.perBoard) && RouterIdOf(k, i * k.perBoard) == i
    ensures Hosted(k, i)
  {
    BoardHasNode(k, i);
    FirstOfBoard(i, k.perBoard);
    if i > 0 { Times(1, i, k.perBoard); }
    if i * k.perBoard == RootNode(k) { assert i == 0 && k.n == 1; }
  }

  /** The root router has an id of its own, unless it is the only router. */
  lemma RootHost(k: Machine)
    requires Runs(k) && 2 <= k.perBoard
    ensures IsRouter(k, RootNode(k)) && RouterIdOf(k, RootNode(k)) == RootId(k)
    ensures k.n == 1 ==> RootId(k) == 0 && Boards(k) == 1
    ensures k.n > 1 ==> RootId(k) == Boards(k) && 0 < RootNode(k) < k.perBoard
  {
  }

  /** It runs on the last node of the first board. */
  lemma RootIsLast(k: Machine, node: nat)
    requires Runs(k) && node < k.n && node / k.perBoard == 0
    ensures node <= RootNode(k) < k.n && RootNode(k) / k.perBoard == 0
  {
    assert node == node / k.perBoard * k.perBoard + node % k.perBoard;
  }

  /** No two nodes run routers with the same id. */
  lemma RouterIdsDiffer(k: Machine, x: nat, y: nat)
    requires Runs(k) && 2 <= k.perBoard && IsRouter(k, x) && IsRouter(k, y) && RouterIdOf(k, x) == RouterIdOf(k, y)
    ensures x == y
  {
    RootHost(k);
    LeafNode(k, x);
    LeafNode(k, y);
  }

  lemma LeafNode(k: Machine, x: nat)
    requires Runs(k) && 2 <= k.perBoard && IsRouter(k, x)
    ensures x != RootNode(k) ==> x == RouterIdOf(k, x) * k.perBoard && RouterIdOf(k, x) < Boards(k)
  {
    if x != RootNode(k) {
      assert x == (x / k.perBoard) * k.perBoard + x % k.perBoard;
      BoardHasNode(k, x / k.perBoard);
    }
  }

  /** The ids of the routers: the boards, and the root. */
  ghost function Ids(k: Machine): iset<Router>
    requires Runs(k)
  {
    iset i: nat | IsId(k, i)
  }

  predicate IsId(k: Machine, i: nat)
    requires Runs(k)
  {
    i < Boards(k) || i == RootId(k)
  }

  lemma IdsAreHosted(k: Machine, id: nat)
    requires Runs(k) && 2 <= k.perBoard
    ensures id in Ids(k) <==> Hosted(k, id)
  {
    RootHost(k);
    if id < Boards(k) { LeafHost(k, id); }
    if Hosted(k, id) {
      var node :| IsRouter(k, node) && RouterIdOf(k, node) == id;
      LeafNode(k, node);
    }
  }

  // ----- the links -----

  /** A --rtr.routerInfo record: the node at the other end and the router ids behind it. */
  datatype Info = Info(otherNode: nat, nidStart: nat, nidStop: nat)

  /** What calcRtrRoot gives the root router. */
  function RootInfos(k: Machine): (s: seq<Info>)
    requires Runs(k)
    ensures |s| == if k.n == 1 then 0 else Boards(k)
    ensures forall i :: 0 <= i < |s| ==> s[i] == Info(i * k.perBoard, i, i)
  {
    if k.n == 1 then [] else seq(Boards(k), i requires 0 <= i => Info(i * k.perBoard, i, i))
  }

  /** What calcRtrLeaf gives a leaf router; link 0 has no range. */
  function LeafInfos(k: Machine): seq<Info>
    requires Runs(k)
  {
    [Info(RootNode(k), 0, 0)]
  }

  function InfosOf(k: Machine, node: nat): seq<Info>
    requires Runs(k)
  {
    if node == RootNode(k) then RootInfos(k) else LeafInfos(k)
  }

  /** calcRtrRoot. */
  method CalcRtrRoot(k: Machine) returns (ret: seq<Info>)
    requires Runs(k)
    ensures ret == RootInfos(k)
  {
    ret := [];
    if k.n == 1 { return; }
    var numLinks := k.n / k.perBoard;
    if k.n % k.perBoard != 0 { numLinks := numLinks + 1; }
    for i := 0 to numLinks
      invariant |ret| == i && forall j :: 0 <= j < i ==> ret[j] == Info(j * k.perBoard, j, j)
    {
      ret := ret + [Info(i * k.perBoard, i, i)];
    }
  }

  /** The links a tree core builds: each on its own channel. */
  function LinksFrom(infos: seq<Info>): (s: seq<Link>)
    ensures |s| == |infos|
    ensures forall i :: 0 <= i < |s| ==> s[i] == Link(i, infos[i].nidStart, infos[i].nidStop)
  {
    seq(|infos|, i requires 0 <= i < |infos| => Link(i, infos[i].nidStart, infos[i].nidStop))
  }

  /** The node that gets an event for router id which router node x sends on. */
  function NextNode(k: Machine, x: nat, id: nat): nat
    requires Runs(k) && InfosOf(k, x) != []
  {
    InfosOf(k, x)[Pick(LinksFrom(InfosOf(k, x)), id)].otherNode
  }

  lemma RootPick(k: Machine, id: nat)
    requires Runs(k) && 1 < k.n
    ensures RootInfos(k) != []
    ensures Pick(LinksFrom(RootInfos(k)), id) == if 0 < id < Boards(k) then id else 0
  {
    BoardHasNode(k, 0);
    var links := LinksFrom(RootInfos(k));
    PickedOnce(links, id, Pick(links, id), if 0 < id < Boards(k) then id else 0);
  }

  /** From a leaf every event goes to the root router; from the root to the leaf it is for. */
  lemma NextIs(k: Machine, x: nat, id: nat)
    requires Runs(k) && 2 <= k.perBoard && 1 < k.n && IsRouter(k, x)
    ensures InfosOf(k, x) != []
    ensures x != RootNode(k) ==> NextNode(k, x, id) == RootNode(k)
    ensures x == RootNode(k) && id < Boards(k) ==> NextNode(k, x, id) == id * k.perBoard && IsRouter(k, id * k.perBoard)
  {
    if x == RootNode(k) {
      RootPick(k, id);
      if id < Boards(k) { LeafHost(k, id); }
    } else {
      var links := LinksFrom(LeafInfos(k));
      PickedOnce(links, id, Pick(links, id), 0);
    }
  }

  /**
    Whatever router an event is for, from any other router it is there after at
    most two hops, and both nodes it passes run routers.
   */
  lemma TwoHops(k: Machine, x: nat, y: nat)
    requires Runs(k) && 2 <= k.perBoard && IsRouter(k, x) && IsRouter(k, y) && x != y
    ensures InfosOf(k, x) != []
    ensures var z := NextNode(k, x, RouterIdOf(k, y));
            IsRouter(k, z) && (z == y || (InfosOf(k, z) != [] && NextNode(k, z, RouterIdOf(k, y)) == y))
  {
    RootHost(k);
    LeafNode(k, y);
    LeafNode(k, x);
    assert 1 < k.n;
    NextIs(k, x, RouterIdOf(k, y));
    NextIs(k, RootNode(k), RouterIdOf(k, y));
  }

  /** An event for an id no router has goes back and forth between the root router and leaf router 0 for ever. */
  lemma UnknownIdBounces(k: Machine, id: nat)
    requires Runs(k) && 2 <= k.perBoard && 1 < k.n && id > RootId(k)
    ensures InfosOf(k, 0) != [] && InfosOf(k, RootNode(k)) != [] && RootNode(k) != 0
    ensures NextNode(k, 0, id) == RootNode(k) && NextNode(k, RootNode(k), id) == 0
  {
    RootHost(k);
    RootPick(k, id);
    BoardHasNode(k, 0);
    LeafHost(k, 0);
    NextIs(k, 0, id);
  }

  // ----- the tree as a topology of the network model -----

  /** The node that runs router id. */
  function NodeOf(k: Machine, id: nat): nat
    requires Runs(k)
  {
    if id == RootId(k) then RootNode(k) else id * k.perBoard
  }

  lemma NodeHasId(k: Machine, id: nat)
    requires Runs(k) && 2 <= k.perBoard && id in Ids(k)
    ensures IsRouter(k, NodeOf(k, id)) && RouterIdOf(k, NodeOf(k, id)) == id
  {
    RootHost(k);
    if id != RootId(k) { LeafHost(k, id); }
  }

  /** The next hop by router id; ids without a router are never sent to. */
  ghost function TreeHop(k: Machine, x: Router, d: Router): Router
    requires Runs(k)
  {
    if x in Ids(k) && d in Ids(k) && InfosOf(k, NodeOf(k, x)) != [] then RouterIdOf(k,
        NextNode(k, NodeOf(k, x), d)) else d
  }

  ghost function TreeDist(k: Machine, x: Router, d: Router): nat
    requires Runs(k)
  {
    if x == d then 0 else if x in Ids(k) && d in Ids(k) && x != RootId(k) then 2 else 1
  }

  ghost function TreeTopo(k: Machine, cfg: Cfg, at: Name -> Router): Topo
    requires Runs(k)
  {
    Topo(cfg, at, (x: Router, d: Router) => TreeHop(k, x, d), (x: Router, d: Router) => TreeDist(k, x, d), 2)
  }

  lemma HopsAre(k: Machine, x: Router, d: Router)
    requires Runs(k) && 2 <= k.perBoard && x in Ids(k) && d in Ids(k) && x != d
    ensures InfosOf(k, NodeOf(k, x)) != []
    ensures TreeHop(k, x, d) == if x == RootId(k) then d else RootId(k)
    ensures TreeHop(k, x, d) in Ids(k)
  {
    RootHost(k);
    NodeHasId(k, x);
    NodeHasId(k, d);
    assert 1 < k.n;
    NextIs(k, NodeOf(k, x), d);
    if x == RootId(k) { LeafHost(k, d); }
  }

  /** The generated tree is a sound topology: every hop comes closer. */
  lemma TreeSound(k: Machine, cfg: Cfg, at: Name -> Router)
    requires Runs(k) && 2 <= k.perBoard
    ensures Sound(TreeTopo(k, cfg, at))
  {
    var topo := TreeTopo(k, cfg, at);
    forall x: Router, d: Router | x != d ensures topo.dist(topo.hop(x, d), d) < topo.dist(x, d) {
      if x in Ids(k) && d in Ids(k) { HopsAre(k, x, d); }
    }
  }

  ghost function PeersOf(k: Machine, id: Router): (s: seq<Router>)
    requires Runs(k)
    ensures |s| == |InfosOf(k, NodeOf(k, id))|
    ensures forall i :: 0 <= i < |s| ==> s[i] == RouterIdOf(k, InfosOf(k, NodeOf(k, id))[i].otherNode)
  {
    var infos := InfosOf(k, NodeOf(k, id));
    seq(|infos|, i requires 0 <= i < |infos| => RouterIdOf(k, infos[i].otherNode))
  }

  /** The links each router is started with lead where the topology says. */
  lemma TreeWired(k: Machine, cfg: Cfg, at: Name -> Router, id: Router)
    requires Runs(k) && 2 <= k.perBoard && id in Ids(k)
    ensures var links := LinksFrom(InfosOf(k, NodeOf(k, id)));
            && Wired(id, links, Place(Ids(k), PeersOf(k, id)), TreeTopo(k, cfg, at))
            && Apart(links, map[], Place(Ids(k), PeersOf(k, id)))
  {
    var infos := InfosOf(k, NodeOf(k, id));
    var links := LinksFrom(infos);
    var peers := PeersOf(k, id);
    forall d | d in Ids(k) && d != id ensures links != [] && TreeTopo(k, cfg, at).hop(id, d) == peers[Pick(links, d)] {
      HopsAre(k, id, d);
    }
    RootHost(k);
    forall i, j | 0 <= i < j < |links| ensures links[i].send != links[j].send && peers[i] != peers[j] {
      if k.n > 1 && NodeOf(k, id) == RootNode(k) {
        LeafHost(k, i);
        LeafHost(k, j);
      }
    }
  }
}
