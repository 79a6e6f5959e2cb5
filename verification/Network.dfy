/**
  The network as it is: requests and replies travel as RouterEvents over links
  that routers share, are forwarded hop by hop, and wait in a router's pending
  queue until the server they are for has registered.
 */
module Network {
  import opened Names
  import opened Circuits

  /** An AppID: a server, or a router itself (server part -1). */
  datatype App = ServerApp(rtr: Router, name: Name) | RouterApp(rtr: Router)

  datatype Body = Down(e: DownEvent) | Up(t: Token)

  /** RouterEvent: a source, a destination and the encoded event. */
  datatype Packet = Packet(src: App, dest: App, body: Body)

  datatype Wire = Wire(
    side: Client -> Side,
    srv: Name -> Server,
    rtr: Router -> RtrState,
    registry: map<CommId, Comm>,
    link: (Router, Router) -> seq<Packet>,
    inbox: Name -> seq<Packet>,
    outbox: Name -> seq<Packet>,
    pend: Name -> seq<Packet>,
    up: Name -> bool)

  /** The deployment with its route table (at) and the next hop each router core picks. */
  datatype Topo = Topo(
    cfg: Cfg,
    at: Name -> Router,
    hop: (Router, Router) -> Router,
    dist: (Router, Router) -> nat,
    far: nat)

  /** Every hop comes closer to where it leads, and no way is longer than far. */
  ghost predicate Sound(topo: Topo) {
    && (forall x: Router, d: Router {:trigger topo.hop(x, d)} :: x != d ==>
          topo.dist(topo.hop(x, d), d) < topo.dist(x, d))
    && (forall x: Router, d: Router :: topo.dist(x, d) <= topo.far)
  }

  datatype WireStep =
    | WUse(c: nat, comm: CommId, groups: Groups, attrs: seq<Attr>)
    | WAtRouter(client: Client)
    | WAtServer(srv: Name, newId: CommId, stamps: seq<nat>)
    | WFromServer(srv: Name)
    | WHop(x: Router, y: Router)
    | WRegister(srv: Name)
    | WDeliver(client: Client)

  function WInitial(): Wire {
    var n := Initial();
    Wire(n.side, n.srv, n.rtr, n.registry, (_, _) => [], _ => [], _ => [], _ => [], _ => false)
  }

  /** The parts both levels share, with given circuits. */
  ghost function Core(w: Wire, fwd: (Router, Name) -> seq<DownEvent>, back: (Router, Name) -> seq<Token>): Net {
    Net(w.side, w.srv, w.rtr, fwd, back, w.registry)
  }

  ghost function NoDown(): (Router, Name) -> seq<DownEvent> { (q: Router, n: Name) => [] }
  ghost function NoUp(): (Router, Name) -> seq<Token> { (q: Router, n: Name) => [] }
  ghost function OneDown(r: Router, m: Name, e: DownEvent): (Router, Name) -> seq<DownEvent> {
    (q: Router, n: Name) => if q == r && n == m then [e] else []
  }
  ghost function OneUp(r: Router, m: Name, t: Token): (Router, Name) -> seq<Token> {
    (q: Router, n: Name) => if q == r && n == m then [t] else []
  }

  ghost function Absorb(w: Wire, n: Net): Wire {
    w.(side := n.side, srv := n.srv, rtr := n.rtr, registry := n.registry)
  }

  function PutLink(w: Wire, x: Router, y: Router, q: seq<Packet>): (v: Wire)
    ensures v == w.(link := v.link)
    ensures forall a: Router, b: Router :: v.link(a, b) == if a == x && b == y then q else w.link(a, b)
  {
    w.(link := (a: Router, b: Router) => if a == x && b == y then q else w.link(a, b))
  }

  function PutInbox(w: Wire, m: Name, q: seq<Packet>): (v: Wire)
    ensures v == w.(inbox := v.inbox)
    ensures forall n :: v.inbox(n) == if n == m then q else w.inbox(n)
  {
    w.(inbox := n => if n == m then q else w.inbox(n))
  }

  function PutOutbox(w: Wire, m: Name, q: seq<Packet>): (v: Wire)
    ensures v == w.(outbox := v.outbox)
    ensures forall n :: v.outbox(n) == if n == m then q else w.outbox(n)
  {
    w.(outbox := n => if n == m then q else w.outbox(n))
  }

  function PutPend(w: Wire, m: Name, q: seq<Packet>): (v: Wire)
    ensures v == w.(pend := v.pend)
    ensures forall n :: v.pend(n) == if n == m then q else w.pend(n)
  {
    w.(pend := n => if n == m then q else w.pend(n))
  }

  /** Router::sendEvent at router x, for a packet that is not for x itself. */
  function Send(topo: Topo, w: Wire, x: Router, p: Packet): Wire {
    if p.dest.rtr != x then
      var y := topo.hop(x, p.dest.rtr);
      PutLink(w, x, y, w.link(x, y) + [p])
    else if p.dest.RouterApp? then w
    else if w.up(p.dest.name) then PutInbox(w, p.dest.name, w.inbox(p.dest.name) + [p])
    else PutPend(w, p.dest.name, w.pend(p.dest.name) + [p])
  }

  function SendAll(topo: Topo, w: Wire, x: Router, ps: seq<Packet>): Wire {
    if ps == [] then w else Send(topo, SendAll(topo, w, x, ps[..|ps| - 1]), x, ps[|ps| - 1])
  }

  function ToMember(topo: Topo, r: Router, m: Name, e: DownEvent): Packet {
    Packet(RouterApp(r), ServerApp(topo.at(m), m), Down(e))
  }

  /** One packet per member of a group, in order. */
  function GroupPackets(topo: Topo, r: Router, members: seq<Name>, e: Name -> DownEvent): seq<Packet> {
    seq(|members|, j requires 0 <= j < |members| => ToMember(topo, r, members[j], e(members[j])))
  }

  function OpenFor(comm: CommId): Name -> DownEvent { (m: Name) => Open(comm, m) }

  function QueryFor(comm: CommId, id: nat, g: nat, attrs: seq<Attr>): Name -> DownEvent {
    (m: Name) => Query(comm, id, g, attrs)
  }

  function OpenPackets(topo: Topo, r: Router, comm: CommId, groups: Groups, n: nat): seq<Packet>
    requires n <= |groups|
  {
    if n == 0 then []
    else OpenPackets(topo, r, comm, groups, n - 1) + GroupPackets(topo, r, groups[n - 1], OpenFor(comm))
  }

  function QueryPackets(topo: Topo, r: Router, comm: CommId, id: nat, attrs: seq<Attr>, groups: Groups,
                        n: nat): seq<Packet>
    requires n <= |groups|
  {
    if n == 0 then []
    else QueryPackets(topo, r, comm, id, attrs, groups, n - 1)
         + GroupPackets(topo, r, groups[n - 1], QueryFor(comm, id, n - 1, attrs))
  }

  /** The loops that fan a create or a request out: group by group, member by member. */
  ghost function Fanout(topo: Topo, w: Wire, c: Client): seq<Packet>
    requires Defined(topo.cfg, Core(w, NoDown(), NoUp()), AtRouter(c))
  {
    var r := topo.cfg.home(c);
    match w.side(c).up[0]
    case Create(comm, groups) => OpenPackets(topo, r, comm, groups, |groups|)
    case Ask(comm, id, attrs) =>
      var groups := w.rtr(r).comms[(c, comm)];
      QueryPackets(topo, r, comm, w.rtr(r).next, attrs, groups, |groups|)
  }

  /** What router x does with packet p that reached it: process a reply of its own, or send it on. */
  ghost function Arrive(topo: Topo, w: Wire, x: Router, p: Packet): Wire
    requires ArriveDefined(topo, w, x, p)
  {
    if p.dest == RouterApp(x) then
      Absorb(w, ApplyAtReply(topo.cfg, Core(w, NoDown(), OneUp(x, p.src.name, p.body.t)), x, p.src.name))
    else Send(topo, w, x, p)
  }

  ghost predicate ArriveDefined(topo: Topo, w: Wire, x: Router, p: Packet) {
    p.dest == RouterApp(x) ==>
      p.src.ServerApp? && p.body.Up?
      && Defined(topo.cfg, Core(w, NoDown(), OneUp(x, p.src.name, p.body.t)), AtReply(x, p.src.name))
  }

  ghost predicate WEnabled(topo: Topo, w: Wire, step: WireStep) {
    match step
    case WUse(c, comm, groups, attrs) => Enabled(topo.cfg, Core(w, NoDown(), NoUp()), Use(c, comm, groups, attrs))
    case WAtRouter(c) => w.side(c).up != []
    case WAtServer(m, newId, stamps) =>
      w.inbox(m) != [] && (w.inbox(m)[0].body.Down? && w.inbox(m)[0].body.e.Query? ==>
                             newId !in w.registry && |stamps| == |w.inbox(m)[0].body.e.attrs|)
    case WFromServer(m) => w.outbox(m) != []
    case WHop(x, y) => w.link(x, y) != []
    case WRegister(m) => m in topo.cfg.started && !w.up(m)
    case WDeliver(c) => w.side(c).down != []
  }

  /** What the code asserts about the configuration, when a server starts and when it takes an event. */
  ghost predicate WAsserted(topo: Topo, w: Wire, step: WireStep) {
    match step
    case WAtServer(m, newId, stamps) =>
      w.inbox(m) != [] && w.inbox(m)[0].body.Down? ==>
        var p := w.inbox(m)[0];
        Asserted(topo.cfg, Core(w, OneDown(p.src.rtr, m, p.body.e), NoUp()), AtServer(p.src.rtr, m, newId, stamps))
    case WRegister(m) => topo.cfg.opens(m)
    case _ => true
  }

  ghost predicate WDefined(topo: Topo, w: Wire, step: WireStep) {
    match step
    case WUse(_, _, _, _) => true
    case WAtRouter(c) => Defined(topo.cfg, Core(w, NoDown(), NoUp()), AtRouter(c))
    case WAtServer(m, newId, stamps) =>
      w.inbox(m) != [] &&
      var p := w.inbox(m)[0];
      p.body.Down? && p.src.RouterApp?
      && Defined(topo.cfg, Core(w, OneDown(p.src.rtr, m, p.body.e), NoUp()), AtServer(p.src.rtr, m, newId, stamps))
    case WFromServer(m) =>
      w.outbox(m) != []
      && ArriveDefined(topo, PutOutbox(w, m, w.outbox(m)[1..]), topo.at(m), w.outbox(m)[0])
    case WHop(x, y) =>
      w.link(x, y) != [] && ArriveDefined(topo, PutLink(w, x, y, w.link(x, y)[1..]), y, w.link(x, y)[0])
    case WRegister(m) => topo.cfg.opens(m)
    case WDeliver(c) => Defined(topo.cfg, Core(w, NoDown(), NoUp()), Deliver(c))
  }

  /** The packets a server's answers become: source and destination swapped. */
  function Replies(topo: Topo, r: Router, m: Name, ts: seq<Token>): seq<Packet> {
    seq(|ts|, k requires 0 <= k < |ts| => Packet(ServerApp(topo.at(m), m), RouterApp(r), Up(ts[k])))
  }

  ghost function WApply(topo: Topo, w: Wire, step: WireStep): Wire
    requires WDefined(topo, w, step)
  {
    match step
    case WUse(c, comm, groups, attrs) =>
      Absorb(w, ApplyUse(Core(w, NoDown(), NoUp()), External(c), comm, groups, attrs))
    case WAtRouter(c) =>
      SendAll(topo, Absorb(w, ApplyAtRouter(topo.cfg, Core(w, NoDown(), NoUp()), c)), topo.cfg.home(c),
          Fanout(topo, w, c))
    case WAtServer(m, newId, stamps) =>
      var p := w.inbox(m)[0];
      var n := ApplyAtServer(topo.cfg, Core(w, OneDown(p.src.rtr, m, p.body.e), NoUp()), p.src.rtr, m, newId, stamps);
      var v := Absorb(PutInbox(w, m, w.inbox(m)[1..]), n);
      PutOutbox(v, m, w.outbox(m) + Replies(topo, p.src.rtr, m, n.back(p.src.rtr, m)))
    case WFromServer(m) => Arrive(topo, PutOutbox(w, m, w.outbox(m)[1..]), topo.at(m), w.outbox(m)[0])
    case WHop(x, y) => Arrive(topo, PutLink(w, x, y, w.link(x, y)[1..]), y, w.link(x, y)[0])
    case WRegister(m) => PutPend(PutInbox(w, m, w.inbox(m) + w.pend(m)), m, []).(up := n => n == m || w.up(n))
    case WDeliver(c) =>
      var n := ApplyDeliver(topo.cfg, Core(w, NoDown(), NoUp()), c);
      if c.External? then Absorb(w, n)
      else
        var r := w.srv(c.name).fini[w.side(c).down[0].id].rtr;
        PutOutbox(Absorb(w, n), c.name, w.outbox(c.name) + Replies(topo, r, c.name, n.back(r, c.name)))
  }
}
