/**
  What the events under way can still cause. Every step that is not a new use
  lowers it, so every run without new uses ends.
 */
module Measure {
  import opened Names
  import opened Circuits
  import opened CircuitInvariant
  import opened Network
  import opened Refinement
  import opened Simulation
  import opened Runs
  import opened Weights

  /** No server has a rank above top. */
  datatype Scale = Scale(topo: Topo, rank: Name -> nat, top: nat)

  ghost predicate Fair(z: Scale) {
    && Sound(z.topo) && Good(z.topo.cfg) && Ranked(z.topo.cfg, z.rank)
    && (forall m :: z.rank(m) <= z.top)
  }

  // ----- what one event can still cause -----

  /** A reply of server m, once it is at the router that asked: it may complete answers up to the top. */
  ghost function ReplyCost(z: Scale, m: Name): nat {
    2 + if z.rank(m) <= z.top then (z.top - z.rank(m)) * (z.topo.far + 5) else 0
  }

  /** An answer to a context: a server sends a reply of its own for it. */
  ghost function AnswerCost(z: Scale, c: Client): nat {
    if c.External? then 1 else ReplyCost(z, c.name) + z.topo.far + 2
  }

  /** A request that reached server m: a reply, or a request to each server it asks. */
  ghost function QueryCost(z: Scale, m: Name): nat
    decreases z.rank(m), 1, 0
  {
    ReplyCost(z, m) + z.topo.far + 4 + AskedCost(z, z.topo.cfg.members(m), z.rank(m))
  }

  ghost function AskedCost(z: Scale, names: seq<Name>, bound: nat): nat
    decreases bound, 0, |names|
  {
    if names == [] then 0
    else
      (if z.rank(names[0]) < bound then QueryCost(z, names[0]) else 0) + 2 * z.topo.far + 1
      + AskedCost(z, names[1..], bound)
  }

  ghost function BodyCost(z: Scale, p: Packet): nat {
    match p.body
    case Up(_) => if p.src.ServerApp? then ReplyCost(z, p.src.name) else 0
    case Down(Open(_, _)) => 1
    case Down(Query(_, _, _, _)) => if p.dest.ServerApp? then QueryCost(z, p.dest.name) else 0
  }

  ghost function WayCost(z: Scale, x: Router, p: Packet): nat { z.topo.dist(x, p.dest.rtr) }

  /** A packet on a link still has the way from x. */
  ghost function LinkCost(z: Scale, x: Router): Packet -> nat {
    (p: Packet) => BodyCost(z, p) + WayCost(z, x, p)
  }

  ghost function HereCost(z: Scale): Packet -> nat { (p: Packet) => BodyCost(z, p) }

  ghost function OutCost(z: Scale): Packet -> nat { (p: Packet) => BodyCost(z, p) + z.topo.far + 1 }

  ghost function MemberCost(z: Scale): Name -> nat { (m: Name) => QueryCost(z, m) + z.topo.far }
  ghost function OpenCost(z: Scale): Name -> nat { (m: Name) => z.topo.far + 1 }
  ghost function GroupCost(h: Name -> nat): seq<Name> -> nat { (names: seq<Name>) => Heap(names, h) }

  ghost function UpCost(z: Scale, registry: map<CommId, Comm>): UpEvent -> nat {
    (e: UpEvent) =>
      match e
      case Create(_, groups) => 1 + Heap(groups, GroupCost(OpenCost(z)))
      case Ask(comm, _, _) => 1 + if comm in registry then Heap(registry[comm].groups, GroupCost(MemberCost(z))) else 0
  }

  ghost function DownCost(z: Scale, c: Client): Answer -> nat { (a: Answer) => AnswerCost(z, c) }

  // ----- the state as a whole -----

  datatype Place =
    | InUp(c: Client) | InDown(c: Client) | OnLink(x: Router, y: Router)
    | InInbox(m: Name) | InPend(m: Name) | InOutbox(m: Name)

  ghost function LoadAt(z: Scale, w: Wire, p: Place): nat {
    match p
    case InUp(c) => Heap(w.side(c).up, UpCost(z, w.registry))
    case InDown(c) => Heap(w.side(c).down, DownCost(z, c))
    case OnLink(x, y) => Heap(w.link(x, y), LinkCost(z, x))
    case InInbox(m) => Heap(w.inbox(m), HereCost(z))
    case InPend(m) => Heap(w.pend(m), HereCost(z))
    case InOutbox(m) => Heap(w.outbox(m), OutCost(z))
  }

  ghost function Load(z: Scale, w: Wire): Place -> nat { (p: Place) => LoadAt(z, w, p) }

  /** The servers that have not registered yet. */
  ghost function Idle(z: Scale, w: Wire): set<Name> { set m | m in z.topo.cfg.started && !w.up(m) }

  /** All that is under way, and the registrations to come, cause at most n steps. */
  ghost predicate Bound(z: Scale, w: Wire, n: nat) {
    exists l: nat :: Weighs(Load(z, w), l) && n == l + |Idle(z, w)|
  }

  /** One queue changes from one load to another. */
  lemma OneQueue(z: Scale, w: Wire, v: Wire, p: Place, l: nat) returns (n: nat)
    requires Weighs(Load(z, w), l)
    requires forall q :: q != p ==> LoadAt(z, v, q) == LoadAt(z, w, q)
    ensures LoadAt(z, w, p) <= l && n == l - LoadAt(z, w, p) + LoadAt(z, v, p) && Weighs(Load(z, v), n)
  {
    forall q | q != p ensures Load(z, v)(q) == Load(z, w)(q) {
      assert LoadAt(z, v, q) == LoadAt(z, w, q);
    }
    Changed(Load(z, w), Load(z, v), p, l);
    n := l - LoadAt(z, w, p) + LoadAt(z, v, p);
  }

  /** What a state weighs depends on its queues and the registry only. */
  lemma SameQueues(z: Scale, w: Wire, v: Wire, l: nat)
    requires Weighs(Load(z, w), l) && v.registry == w.registry
    requires forall c :: v.side(c).up == w.side(c).up && v.side(c).down == w.side(c).down
    requires forall x: Router, y: Router :: v.link(x, y) == w.link(x, y)
    requires forall m :: v.inbox(m) == w.inbox(m) && v.pend(m) == w.pend(m) && v.outbox(m) == w.outbox(m)
    ensures Weighs(Load(z, v), l)
  {
    var n := OneQueue(z, w, v, InUp(External(0)), l);
  }

  // ----- sending -----

  lemma SendLoad(z: Scale, w: Wire, x: Router, p: Packet, l: nat) returns (n: nat)
    requires Weighs(Load(z, w), l)
    ensures Weighs(Load(z, Send(z.topo, w, x, p)), n)
    ensures n <= l + BodyCost(z, p) + z.topo.dist(x, p.dest.rtr)
    ensures Idle(z, Send(z.topo, w, x, p)) == Idle(z, w)
  {
    var v := Send(z.topo, w, x, p);
    if p.dest.rtr != x {
      var y := z.topo.hop(x, p.dest.rtr);
      HeapOne(w.link(x, y), p, LinkCost(z, x));
      n := OneQueue(z, w, v, OnLink(x, y), l);
    } else if p.dest.RouterApp? {
      n := l;
    } else if w.up(p.dest.name) {
      HeapOne(w.inbox(p.dest.name), p, HereCost(z));
      n := OneQueue(z, w, v, InInbox(p.dest.name), l);
    } else {
      HeapOne(w.pend(p.dest.name), p, HereCost(z));
      n := OneQueue(z, w, v, InPend(p.dest.name), l);
    }
  }

  ghost function FarCost(z: Scale): Packet -> nat { (p: Packet) => BodyCost(z, p) + z.topo.far }

  lemma {:induction false} SendAllLoad(z: Scale, w: Wire, x: Router, ps: seq<Packet>, l: nat) returns (n: nat)
    requires Sound(z.topo) && Weighs(Load(z, w), l)
    ensures Weighs(Load(z, SendAll(z.topo, w, x, ps)), n) && n <= l + Heap(ps, FarCost(z))
    ensures Idle(z, SendAll(z.topo, w, x, ps)) == Idle(z, w)
  {
    if ps == [] {
      n := l;
    } else {
      var init, p := ps[..|ps| - 1], ps[|ps| - 1];
      var a := SendAllLoad(z, w, x, init, l);
      n := SendLoad(z, SendAll(z.topo, w, x, init), x, p, a);
      assert ps == init + [p];
      HeapOne(init, p, FarCost(z));
    }
  }

  lemma {:induction false} GroupLoad(z: Scale, r: Router, members: seq<Name>, e: Name -> DownEvent, h: Name -> nat)
    requires forall m :: FarCost(z)(ToMember(z.topo, r, m, e(m))) == h(m)
    ensures Heap(GroupPackets(z.topo, r, members, e), FarCost(z)) == Heap(members, h)
  {
    if members != [] {
      GroupLoad(z, r, members[1..], e, h);
      assert GroupPackets(z.topo, r, members, e)[1..] == GroupPackets(z.topo, r, members[1..], e);
    }
  }

  lemma {:induction false} OpensLoad(z: Scale, r: Router, comm: CommId, groups: Groups, n: nat)
    requires n <= |groups|
    ensures Heap(OpenPackets(z.topo, r, comm, groups, n), FarCost(z)) == Heap(groups[..n], GroupCost(OpenCost(z)))
  {
    if n != 0 {
      OpensLoad(z, r, comm, groups, n - 1);
      GroupLoad(z, r, groups[n - 1], OpenFor(comm), OpenCost(z));
      HeapAppend(OpenPackets(z.topo, r, comm, groups, n - 1), GroupPackets(z.topo, r, groups[n - 1], OpenFor(comm)),
          FarCost(z));
      assert groups[..n] == groups[..n - 1] + [groups[n - 1]];
      HeapOne(groups[..n - 1], groups[n - 1], GroupCost(OpenCost(z)));
    }
  }

  lemma {:induction false} QueriesLoad(z: Scale, r: Router, comm: CommId, id: nat, attrs: seq<Attr>, groups: Groups,
                                       n: nat)
    requires n <= |groups|
    ensures Heap(QueryPackets(z.topo, r, comm, id, attrs, groups, n), FarCost(z))
        == Heap(groups[..n], GroupCost(MemberCost(z)))
  {
    if n != 0 {
      QueriesLoad(z, r, comm, id, attrs, groups, n - 1);
      GroupLoad(z, r, groups[n - 1], QueryFor(comm, id, n - 1, attrs), MemberCost(z));
      HeapAppend(QueryPackets(z.topo, r, comm, id, attrs, groups, n - 1),
                 GroupPackets(z.topo, r, groups[n - 1], QueryFor(comm, id, n - 1, attrs)), FarCost(z));
      assert groups[..n] == groups[..n - 1] + [groups[n - 1]];
      HeapOne(groups[..n - 1], groups[n - 1], GroupCost(MemberCost(z)));
    }
  }

  // ----- an answer may leave when a reply arrives -----

  /** Whoever asked server m stands above it. */
  lemma AskerAbove(z: Scale, s: Net, r: Router, m: Name)
    requires Fair(z) && Inv(z.topo.cfg, s) && s.back(r, m) != [] && s.back(r, m)[0].id in s.rtr(r).infos
    ensures AnswerCost(z, s.rtr(r).infos[s.back(r, m)[0].id].src) < ReplyCost(z, m)
  {
    var cfg := z.topo.cfg;
    var t := s.back(r, m)[0];
    var rec := s.rtr(r).infos[t.id];
    if rec.src.Daemon? {
      var d := rec.src.name;
      AskedByDaemon(cfg, s, r, m);
      hide Inv, Good, ReplyCost, AnswerCost, Sound;
      var j :| 0 <= j < |cfg.members(d)| && cfg.members(d)[j] == m;
      CostRises(z, m, d);
    }
  }

  lemma CostRises(z: Scale, m: Name, d: Name)
    requires z.rank(m) < z.rank(d) <= z.top
    ensures AnswerCost(z, Daemon(d)) < ReplyCost(z, m)
  {
    var a, b, f := z.top - z.rank(m), z.top - z.rank(d), z.topo.far + 5;
    Product(a, b, f);
    assert ReplyCost(z, m) == 2 + a * f && ReplyCost(z, d) == 2 + b * f;
  }

  lemma Product(a: nat, b: nat, f: nat)
    requires b < a
    ensures b * f + f <= a * f
  {
    var d := a - b;
    assert (b + d) * f == b * f + d * f;
    Dilate(d, f);
  }

  lemma Dilate(d: nat, f: nat)
    requires 1 <= d
    ensures f <= d * f
  {
    var e := d - 1;
    assert (e + 1) * f == e * f + f;
    assert 0 <= e * f;
  }

  lemma AskedByDaemon(cfg: Cfg, s: Net, r: Router, m: Name)
    requires Good(cfg) && Inv(cfg, s) && s.back(r, m) != [] && s.back(r, m)[0].id in s.rtr(r).infos
    requires s.rtr(r).infos[s.back(r, m)[0].id].src.Daemon?
    ensures var rec := s.rtr(r).infos[s.back(r, m)[0].id];
            cfg.remote(rec.src.name, rec.attrs) && m in cfg.members(rec.src.name)
  {
    var t := s.back(r, m)[0];
    var rec := s.rtr(r).infos[t.id];
    var c, d, k := rec.src, rec.src.name, rec.respId;
    assert RecordOk(cfg, s, r, t.id) && TableOk(cfg, s, r);
    assert CircuitOk(cfg, s, r, m) && TokenOk(cfg, s, r, m, t);
    CountSome(s.back(r, m), IsToken(t.id, t.grp), 0);
    assert Balance(s, r, t.id, t.grp, m);
    assert m in multiset(rec.groups[t.grp]);
    assert SideOk(cfg, s, c) && ClientBalance(cfg, s, c, k);
    assert t.id in RecordsFor(s.rtr(cfg.home(c)).infos, c, k);
    assert k in s.side(c).waiting;
    assert DaemonOk(cfg, s, d) && JobOk(cfg, s, d, k);
    assert rec.groups == [cfg.members(d)];
  }

  // ----- each step lowers the load, or registers a server -----

  /** A reply is gathered: at most an answer leaves, to someone above. */
  lemma GatherLoad(z: Scale, w: Wire, w1: Wire, x: Router, p: Packet, l: nat) returns (n: nat)
    requires Fair(z) && Sane(z.topo, w) && p.dest == RouterApp(x) && p.src.ServerApp? && p.body.Up?
    requires w1.side == w.side && w1.srv == w.srv && w1.rtr == w.rtr && w1.registry == w.registry && w1.up == w.up
    requires ArriveDefined(z.topo, w1, x, p)
    requires Abstract(z.topo, w).back(x, p.src.name) != [] && Abstract(z.topo, w).back(x, p.src.name)[0] == p.body.t
    requires Weighs(Load(z, w1), l)
    ensures Weighs(Load(z, Arrive(z.topo, w1, x, p)), n) && n < l + ReplyCost(z, p.src.name)
    ensures Idle(z, Arrive(z.topo, w1, x, p)) == Idle(z, w1)
  {
    var s, t := Abstract(z.topo, w), p.body.t;
    var b := Core(w1, NoDown(), OneUp(x, p.src.name, t));
    var v := Arrive(z.topo, w1, x, p);
    var rec := Received(w.rtr(x).infos[t.id], t);
    AskerAbove(z, s, x, p.src.name);
    if rec.info.pending == 0 {
      HeapOne(w1.side(rec.src).down, Answer(rec.respId, rec.info.resp), DownCost(z, rec.src));
      n := OneQueue(z, w1, v, InDown(rec.src), l);
    } else {
      SameQueues(z, w1, v, l);
      n := l;
    }
  }

  lemma HopLoad(z: Scale, w: Wire, x: Router, y: Router, l: nat) returns (n: nat)
    requires Fair(z) && Sane(z.topo, w) && WEnabled(z.topo, w, WHop(x, y)) && WDefined(z.topo, w, WHop(x, y))
    requires Weighs(Load(z, w), l)
    ensures var v := WApply(z.topo, w, WHop(x, y)); Weighs(Load(z, v), n) && n < l && Idle(z, v) == Idle(z, w)
  {
    var topo := z.topo;
    var p := w.link(x, y)[0];
    assert LinkOk(topo, x, y, p);
    var w1 := Popped(w, x, y);
    var a := OneQueue(z, w, w1, OnLink(x, y), l);
    assert l == a + LinkCost(z, x)(p);
    if p.dest == RouterApp(y) {
      HopReply(topo, w, x, y);
      n := GatherLoad(z, w, w1, y, p, a);
    } else {
      n := SendLoad(z, w1, y, p, a);
    }
  }

  /** The reply that arrives is the next of its circuit. */
  lemma HopReply(topo: Topo, w: Wire, x: Router, y: Router)
    requires Sane(topo, w) && w.link(x, y) != [] && w.link(x, y)[0].dest == RouterApp(y)
    ensures var p := w.link(x, y)[0];
            && p.src.ServerApp? && p.body.Up?
            && Abstract(topo, w).back(y, p.src.name) != [] && Abstract(topo, w).back(y, p.src.name)[0] == p.body.t
  {
    var p := w.link(x, y)[0];
    assert LinkOk(topo, x, y, p);
    var m := p.src.name;
    ArriveUp(topo, w, x, y, p, topo.at(m), m);
  }

  lemma FromServerLoad(z: Scale, w: Wire, m: Name, l: nat) returns (n: nat)
    requires Fair(z) && Sane(z.topo, w) && WEnabled(z.topo, w, WFromServer(m)) && WDefined(z.topo, w, WFromServer(m))
    requires Weighs(Load(z, w), l)
    ensures var v := WApply(z.topo, w, WFromServer(m)); Weighs(Load(z, v), n) && n < l && Idle(z, v) == Idle(z, w)
  {
    var topo := z.topo;
    assert ServerQueuesOk(topo, w, m);
    var p, x := w.outbox(m)[0], topo.at(m);
    var w1 := Left(w, m);
    var a := OneQueue(z, w, w1, InOutbox(m), l);
    assert l == a + OutCost(z)(p);
    if p.dest == RouterApp(x) {
      LeftBack(topo, w, m, x, m);
      FirstReply(topo, w, m);
      n := GatherLoad(z, w, w1, x, p, a);
    } else {
      n := SendLoad(z, w1, x, p, a);
    }
  }

  lemma FirstReply(topo: Topo, w: Wire, m: Name)
    requires Sane(topo, w) && w.outbox(m) != [] && w.outbox(m)[0].dest == RouterApp(topo.at(m))
    ensures var p := w.outbox(m)[0];
            && p.src.ServerApp? && p.body.Up? && p.src.name == m
            && Abstract(topo, w).back(topo.at(m), m) != [] && Abstract(topo, w).back(topo.at(m), m)[0] == p.body.t
  {
    assert ServerQueuesOk(topo, w, m);
  }

  lemma RouterLoad(z: Scale, w: Wire, c: Client, l: nat) returns (n: nat)
    requires Fair(z) && Sane(z.topo, w) && WEnabled(z.topo, w, WAtRouter(c)) && WDefined(z.topo, w, WAtRouter(c))
    requires Weighs(Load(z, w), l)
    ensures var v := WApply(z.topo, w, WAtRouter(c)); Weighs(Load(z, v), n) && n < l && Idle(z, v) == Idle(z, w)
  {
    var topo, e := z.topo, w.side(c).up[0];
    var w1 := Absorb(w, ApplyAtRouter(topo.cfg, Core(w, NoDown(), NoUp()), c));
    var a := OneQueue(z, w, w1, InUp(c), l);
    assert l == a + UpCost(z, w.registry)(e);
    n := SendAllLoad(z, w1, topo.cfg.home(c), Fanout(topo, w, c), a);
    FanoutLoad(z, w, c);
  }

  lemma FanoutLoad(z: Scale, w: Wire, c: Client)
    requires Fair(z) && Sane(z.topo, w) && w.side(c).up != [] && WDefined(z.topo, w, WAtRouter(c))
    ensures Heap(Fanout(z.topo, w, c), FarCost(z)) < UpCost(z, w.registry)(w.side(c).up[0])
  {
    var r, s := z.topo.cfg.home(c), Abstract(z.topo, w);
    assert UpOk(z.topo.cfg, s, c) && UpEventOk(s, c, s.side(c).up[0]) && TableOk(z.topo.cfg, s, r);
    match w.side(c).up[0]
    case Create(comm, groups) =>
      OpensLoad(z, r, comm, groups, |groups|);
      assert groups[..|groups|] == groups;
    case Ask(comm, id, attrs) =>
      var groups := w.rtr(r).comms[(c, comm)];
      QueriesLoad(z, r, comm, w.rtr(r).next, attrs, groups, |groups|);
      assert groups[..|groups|] == groups;
  }

  lemma DeliverLoad(z: Scale, w: Wire, c: Client, l: nat) returns (n: nat)
    requires Fair(z) && Sane(z.topo, w) && WEnabled(z.topo, w, WDeliver(c)) && WDefined(z.topo, w, WDeliver(c))
    requires Weighs(Load(z, w), l)
    ensures var v := WApply(z.topo, w, WDeliver(c)); Weighs(Load(z, v), n) && n < l && Idle(z, v) == Idle(z, w)
  {
    var b := Core(w, NoDown(), NoUp());
    var y := ApplyDeliver(z.topo.cfg, b, c);
    var w1 := Absorb(w, y);
    var a := OneQueue(z, w, w1, InDown(c), l);
    assert l == a + AnswerCost(z, c);
    if c.External? {
      n := a;
    } else {
      var r := w.srv(c.name).fini[w.side(c).down[0].id].rtr;
      assert |y.back(r, c.name)| == 1;
      assert y.back(r, c.name) == [y.back(r, c.name)[0]];
      n := ReplyLoad(z, w1, WApply(z.topo, w, WDeliver(c)), r, c.name, y.back(r, c.name)[0], a);
    }
  }

  /** One more reply in a server's outbox. */
  lemma ReplyLoad(z: Scale, w: Wire, v: Wire, r: Router, m: Name, t: Token, l: nat) returns (n: nat)
    requires Weighs(Load(z, w), l)
    requires v == PutOutbox(w, m, w.outbox(m) + Replies(z.topo, r, m, [t]))
    ensures Weighs(Load(z, v), n) && n == l + ReplyCost(z, m) + z.topo.far + 1 && Idle(z, v) == Idle(z, w)
  {
    var p := Packet(ServerApp(z.topo.at(m), m), RouterApp(r), Up(t));
    assert Replies(z.topo, r, m, [t]) == [p];
    HeapOne(w.outbox(m), p, OutCost(z));
    n := OneQueue(z, w, v, InOutbox(m), l);
  }

  lemma RegisterLoad(z: Scale, w: Wire, m: Name, l: nat)
    requires WEnabled(z.topo, w, WRegister(m)) && WDefined(z.topo, w, WRegister(m)) && Weighs(Load(z, w), l)
    ensures var v := WApply(z.topo, w, WRegister(m)); Weighs(Load(z, v), l) && |Idle(z, v)| + 1 == |Idle(z, w)|
  {
    var v := WApply(z.topo, w, WRegister(m));
    FlushLoad(z, w, m, l);
    SameQueues(z, Flushed(w, m), v, l);
    assert Idle(z, w) == Idle(z, v) + {m};
  }

  ghost function Flushed(w: Wire, m: Name): Wire { PutPend(PutInbox(w, m, w.inbox(m) + w.pend(m)), m, []) }

  lemma FlushLoad(z: Scale, w: Wire, m: Name, l: nat)
    requires Weighs(Load(z, w), l)
    ensures Weighs(Load(z, Flushed(w, m)), l)
  {
    var w1 := PutInbox(w, m, w.inbox(m) + w.pend(m));
    HeapAppend(w.inbox(m), w.pend(m), HereCost(z));
    var a := OneQueue(z, w, w1, InInbox(m), l);
    var b := OneQueue(z, w1, Flushed(w, m), InPend(m), a);
  }

  // ----- a context asks -----

  /** A new communicator changes the cost of nothing that is under way. */
  lemma RegistryLoad(z: Scale, w: Wire, comm: CommId, x: Comm, l: nat)
    requires Fair(z) && Sane(z.topo, w) && comm !in w.registry && Weighs(Load(z, w), l)
    ensures Weighs(Load(z, w.(registry := w.registry[comm := x])), l)
  {
    var v := w.(registry := w.registry[comm := x]);
    var s := Abstract(z.topo, w);
    forall p ensures LoadAt(z, v, p) == LoadAt(z, w, p) {
      if p.InUp? {
        assert UpOk(z.topo.cfg, s, p.c);
        forall k | 0 <= k < |w.side(p.c).up|
          ensures UpCost(z, v.registry)(w.side(p.c).up[k]) == UpCost(z, w.registry)(w.side(p.c).up[k])
        {
          assert UpEventOk(s, p.c, s.side(p.c).up[k]);
        }
        HeapSame(w.side(p.c).up, UpCost(z, v.registry), UpCost(z, w.registry));
      }
    }
    var n := OneQueue(z, w, v, InUp(External(0)), l);
  }

  /** What a use adds: the request, and the communicator when it is new. */
  ghost function UseCost(z: Scale, groups: Groups): nat {
    2 + Heap(groups, GroupCost(OpenCost(z))) + Heap(groups, GroupCost(MemberCost(z)))
  }

  /** What the events of a use cost, once the communicator is in the registry. */
  lemma EventsCost(z: Scale, registry: map<CommId, Comm>, q: seq<UpEvent>, known: bool, ask: UpEvent)
    requires ask.Ask? && ask.comm in registry
    ensures var groups := registry[ask.comm].groups;
            Heap(q + (if known then [] else [Create(ask.comm, groups)]) + [ask], UpCost(z, registry))
              <= Heap(q, UpCost(z, registry)) + UseCost(z, groups)
  {
    var groups := registry[ask.comm].groups;
    var events := if known then [] else [Create(ask.comm, groups)];
    if known { assert q + events == q; } else { HeapOne(q, Create(ask.comm, groups), UpCost(z, registry)); }
    HeapOne(q + events, ask, UpCost(z, registry));
  }

  lemma UseLoad(z: Scale, w: Wire, client: Client, comm: CommId, groups: Groups, attrs: seq<Attr>,
                l: nat) returns (n: nat)
    requires Fair(z) && Sane(z.topo, w) && Weighs(Load(z, w), l)
    requires comm in w.registry ==> w.registry[comm] == Comm(client, groups)
    ensures var v := Absorb(w, ApplyUse(Core(w, NoDown(), NoUp()), client, comm, groups, attrs));
            Weighs(Load(z, v), n) && n <= l + UseCost(z, groups)
  {
    var v := Absorb(w, ApplyUse(Core(w, NoDown(), NoUp()), client, comm, groups, attrs));
    var q, ask := w.side(client).up, UpEvent.Ask(comm, w.side(client).next, attrs);
    var w1 := w.(registry := v.registry);
    EventsCost(z, v.registry, q, comm in w.registry, ask);
    if comm in w.registry { assert w1 == w; } else { RegistryLoad(z, w, comm, Comm(client, groups), l); }
    assert v.side(client).up == q + (if comm in w.registry then [] else [Create(comm, groups)]) + [ask];
    hide UseCost, Sane, Fair, UpCost;
    n := OneQueue(z, w1, v, InUp(client), l);
  }

  /** Asking the members of a server costs less than the request that makes it ask. */
  lemma {:induction false} AskedCostIs(z: Scale, names: seq<Name>, bound: nat)
    requires forall j :: 0 <= j < |names| ==> z.rank(names[j]) < bound
    ensures Heap(names, OpenCost(z)) + Heap(names, MemberCost(z)) == AskedCost(z, names, bound)
  {
    if names != [] { AskedCostIs(z, names[1..], bound); }
  }

  lemma AskOthersCost(z: Scale, m: Name, attrs: seq<Attr>)
    requires Fair(z) && z.topo.cfg.remote(m, attrs)
    ensures UseCost(z, [z.topo.cfg.members(m)]) < QueryCost(z, m)
  {
    var names := z.topo.cfg.members(m);
    AskedCostIs(z, names, z.rank(m));
    assert forall h: Name -> nat :: Heap([names], GroupCost(h)) == Heap(names, h) + Heap([names][1..], GroupCost(h));
  }

  lemma ServerLoad(z: Scale, w: Wire, m: Name, newId: CommId, stamps: seq<nat>, l: nat) returns (n: nat)
    requires Fair(z) && Sane(z.topo, w) && Weighs(Load(z, w), l)
    requires WEnabled(z.topo, w, WAtServer(m, newId, stamps)) && WDefined(z.topo, w, WAtServer(m, newId, stamps))
    ensures var v := WApply(z.topo, w, WAtServer(m, newId, stamps));
        Weighs(Load(z, v), n) && n < l && Idle(z, v) == Idle(z, w)
  {
    var topo, cfg, p := z.topo, z.topo.cfg, w.inbox(m)[0];
    var r, s, w1 := p.src.rtr, Abstract(z.topo, w), Taken(w, m);
    var v := WApply(topo, w, WAtServer(m, newId, stamps));
    assert ServerQueuesOk(topo, w, m) && ServerCommsOk(cfg, s, m) && DaemonOk(cfg, s, m);
    var a := OneQueue(z, w, w1, InInbox(m), l);
    assert l == a + HereCost(z)(p);
    var y := ApplyAtServer(cfg, Core(w, OneDown(r, m, p.body.e), NoUp()), r, m, newId, stamps);
    match p.body.e
    case Open(_, _) =>
      assert y.back(r, m) == [];
      SameQueues(z, w1, v, a);
      n := a;
    case Query(comm, id, grp, attrs) =>
      if cfg.remote(m, attrs) {
        AskOthersCost(z, m, attrs);
        n := ForwardLoad(z, w, m, newId, stamps, l);
      } else {
        assert |y.back(r, m)| == 1 && y.back(r, m) == [y.back(r, m)[0]];
        var w2 := Absorb(w1, y);
        SameQueues(z, w1, w2, a);
        n := ReplyLoad(z, w2, v, r, m, y.back(r, m)[0], a);
      }
  }

  /** What a server that asks others leaves behind. */
  lemma ForwardIs(z: Scale, w: Wire, m: Name, newId: CommId, stamps: seq<nat>) returns (u: Wire, own: CommId)
    requires Fair(z) && Sane(z.topo, w)
    requires WEnabled(z.topo, w, WAtServer(m, newId, stamps)) && WDefined(z.topo, w, WAtServer(m, newId, stamps))
    requires w.inbox(m)[0].body.e.Query? && z.topo.cfg.remote(m, w.inbox(m)[0].body.e.attrs)
    ensures var groups := [z.topo.cfg.members(m)];
            && (own in w.registry ==> w.registry[own] == Comm(Daemon(m), groups))
            && u == Absorb(w, ApplyUse(Core(w, NoDown(), NoUp()), Daemon(m), own, groups, w.inbox(m)[0].body.e.attrs))
            && u.inbox == w.inbox && u.up == w.up
    ensures var v := WApply(z.topo, w, WAtServer(m, newId, stamps));
            && v.registry == u.registry && v.link == u.link && v.pend == u.pend && v.up == u.up
            && (forall c :: v.side(c) == u.side(c))
            && (forall n :: v.inbox(n) == Taken(u, m).inbox(n) && v.outbox(n) == u.outbox(n))
  {
    var topo, cfg, p := z.topo, z.topo.cfg, w.inbox(m)[0];
    var s := Abstract(z.topo, w);
    assert ServerCommsOk(cfg, s, m) && DaemonOk(cfg, s, m);
    own := if w.srv(m).own.Some? then w.srv(m).own.value else newId;
    u := Absorb(w, ApplyUse(Core(w, NoDown(), NoUp()), Daemon(m), own, [cfg.members(m)], p.body.e.attrs));
  }

  lemma ForwardLoad(z: Scale, w: Wire, m: Name, newId: CommId, stamps: seq<nat>, l: nat) returns (n: nat)
    requires Fair(z) && Sane(z.topo, w)
    requires WEnabled(z.topo, w, WAtServer(m, newId, stamps)) && WDefined(z.topo, w, WAtServer(m, newId, stamps))
    requires w.inbox(m)[0].body.e.Query? && z.topo.cfg.remote(m, w.inbox(m)[0].body.e.attrs)
    requires Weighs(Load(z, w), l)
    ensures var v := WApply(z.topo, w, WAtServer(m, newId, stamps));
            && HereCost(z)(w.inbox(m)[0]) <= l + UseCost(z, [z.topo.cfg.members(m)])
            && Weighs(Load(z, v), n) && n <= l + UseCost(z, [z.topo.cfg.members(m)]) - HereCost(z)(w.inbox(m)[0])
            && Idle(z, v) == Idle(z, w)
  {
    var attrs, groups := w.inbox(m)[0].body.e.attrs, [z.topo.cfg.members(m)];
    var v := WApply(z.topo, w, WAtServer(m, newId, stamps));
    var u, own := ForwardIs(z, w, m, newId, stamps);
    n := UseLoad(z, w, Daemon(m), own, groups, attrs, l);
    hide Sane, Fair, UseCost, WEnabled, WDefined, WApply, HereCost;
    n := OneQueue(z, u, Taken(u, m), InInbox(m), n);
    SameQueues(z, Taken(u, m), v, n);
  }
}
