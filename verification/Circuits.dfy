/**
  The read protocol with one first-in-first-out circuit in each direction
  between every router and every server: client contexts, routers and servers
  as steps over queues. Network.dfy shows that the real network, with its
  shared links, forwarding routers and pending queues, behaves like this.
 */
module Circuits {
  import opened Names
  import opened Gather

  type Router = nat
  type CommId = nat
  type Groups = seq<seq<Name>>

  /** A client context: an application, or the context inside a server daemon. */
  datatype Client = External(id: nat) | Daemon(name: Name)

  /** What one outstanding read asked for. */
  datatype Want = Want(comm: CommId, attrs: seq<Attr>)

  datatype Comm = Comm(owner: Client, groups: Groups)

  /** CommCreate and CommReq, from a context to its router. */
  datatype UpEvent =
    | Create(comm: CommId, groups: Groups)
    | Ask(comm: CommId, id: nat, attrs: seq<Attr>)

  /** CommCreate and CommReq, from a router to a server. */
  datatype DownEvent =
    | Open(comm: CommId, member: Name)
    | Query(comm: CommId, id: nat, grp: nat, attrs: seq<Attr>)

  /** CommResp, from a server to a router. */
  datatype Token = Token(id: nat, grp: nat, from: Name, reply: Reply)

  /** CommResp, from a router to a context. */
  datatype Answer = Answer(id: nat, resp: Response)

  /** One context: its two channels, its reads, and the answers it has processed. */
  datatype Side = Side(up: seq<UpEvent>, down: seq<Answer>, asked: map<nat, Want>,
                       waiting: set<nat>, next: nat, done: seq<Answer>)

  /** An entry of m_finiMap: whom to answer, and what was asked. */
  datatype Job = Job(rtr: Router, id: nat, grp: nat, attrs: seq<Attr>)

  /** One server: m_commMap, m_finiMap and the communicator of its root object. */
  datatype Server = Server(comms: map<CommId, Name>, fini: map<nat, Job>, own: Option<CommId>)

  /** A CommReqInfo; from[g] names the servers whose replies are queued for group g. */
  datatype Record = Record(src: Client, respId: nat, comm: CommId, attrs: seq<Attr>,
                           groups: Groups, info: Info, from: seq<seq<Name>>)

  /** One router: the communicators of its clients and the outstanding records. */
  datatype RtrState = RtrState(comms: map<(Client, CommId), Groups>, infos: map<nat, Record>, next: nat)

  datatype Net = Net(
    side: Client -> Side,
    srv: Name -> Server,
    rtr: Router -> RtrState,
    fwd: (Router, Name) -> seq<DownEvent>,
    back: (Router, Name) -> seq<Token>,
    registry: map<CommId, Comm>)

  /**
    The deployment: the router each context connects to, whether the root
    object of a server is read through other servers and through which, and the
    row a server owes for a list of attributes. Servers are started for some
    objects. A server gets through its startup when the asserts about its root
    object hold (opens), and takes a request when the one about its attributes
    does (allows). What it can answer, with the servers it asks, is fit.
   */
  datatype Cfg = Cfg(
    home: Client -> Router,
    started: set<Name>,
    remote: (Name, seq<Attr>) -> bool,
    members: Name -> seq<Name>,
    row: (Name, seq<Attr>) -> Row,
    opens: Name -> bool,
    allows: (Name, seq<Attr>) -> bool,
    fit: (Name, seq<Attr>) -> bool)

  datatype Step =
    | Use(c: nat, comm: CommId, groups: Groups, attrs: seq<Attr>)
    | AtRouter(client: Client)
    | AtServer(rtr: Router, srv: Name, newId: CommId, stamps: seq<nat>)
    | AtReply(rtr: Router, srv: Name)
    | Deliver(client: Client)

  // ----- the rows a deployment promises -----

  function RowsFor(cfg: Cfg, names: seq<Name>, attrs: seq<Attr>): (rows: seq<Row>)
    ensures |rows| == |names| && forall j :: 0 <= j < |names| ==> rows[j] == cfg.row(names[j], attrs)
  {
    seq(|names|, j requires 0 <= j < |names| => cfg.row(names[j], attrs))
  }

  ghost predicate Widths(cfg: Cfg) {
    forall m, a :: |cfg.row(m, a)| == |a|
  }

  /** The sum over a list of servers, column by column. */
  ghost function Expected(cfg: Cfg, names: seq<Name>, attrs: seq<Attr>): (r: Row)
    requires Widths(cfg)
    ensures |r| == |attrs|
  {
    ColumnSum(|attrs|, RowsFor(cfg, names, attrs))
  }

  /** The server is there and takes the request; the servers it asks are another matter. */
  ghost predicate Willing(cfg: Cfg, m: Name, attrs: seq<Attr>) {
    m in cfg.started && cfg.opens(m) && cfg.allows(m, attrs)
  }

  ghost predicate MembersFit(cfg: Cfg, names: seq<Name>, attrs: seq<Attr>) {
    forall j :: 0 <= j < |names| ==> cfg.fit(names[j], attrs)
  }

  ghost predicate GroupsFit(cfg: Cfg, groups: Groups, attrs: seq<Attr>) {
    forall g :: 0 <= g < |groups| ==> MembersFit(cfg, groups[g], attrs)
  }

  /** A server that reads through others owes the sum of what they owe, and is fit exactly when they are too. */
  ghost predicate Good(cfg: Cfg) {
    && Widths(cfg)
    && (forall m, a :: cfg.remote(m, a) ==> cfg.members(m) != [] && cfg.row(m, a) == Expected(cfg, cfg.members(m), a))
    && (forall m, a :: cfg.fit(m, a) <==>
          Willing(cfg, m, a) && (cfg.remote(m, a) ==> MembersFit(cfg, cfg.members(m), a)))
  }

  // ----- the steps -----

  function EmptySide(): Side { Side([], [], map[], {}, 0, []) }

  function Initial(): Net {
    Net(_ => EmptySide(), _ => Server(map[], map[], None), _ => RtrState(map[], map[], 0),
        (_, _) => [], (_, _) => [], map[])
  }

  function WithSide(s: Net, c: Client, x: Side): (t: Net)
    ensures t.srv == s.srv && t.rtr == s.rtr && t.fwd == s.fwd && t.back == s.back && t.registry == s.registry
    ensures forall d :: t.side(d) == if d == c then x else s.side(d)
  {
    s.(side := d => if d == c then x else s.side(d))
  }

  function WithServer(s: Net, m: Name, x: Server): (t: Net)
    ensures t.side == s.side && t.rtr == s.rtr && t.fwd == s.fwd && t.back == s.back && t.registry == s.registry
    ensures forall n :: t.srv(n) == if n == m then x else s.srv(n)
  {
    s.(srv := n => if n == m then x else s.srv(n))
  }

  function WithRouter(s: Net, r: Router, x: RtrState): (t: Net)
    ensures t.side == s.side && t.srv == s.srv && t.fwd == s.fwd && t.back == s.back && t.registry == s.registry
    ensures forall q: Router :: t.rtr(q) == if q == r then x else s.rtr(q)
  {
    s.(rtr := (q: Router) => if q == r then x else s.rtr(q))
  }

  function WithFwd(s: Net, r: Router, f: Name -> seq<DownEvent>): (t: Net)
    ensures t.side == s.side && t.srv == s.srv && t.rtr == s.rtr && t.back == s.back && t.registry == s.registry
    ensures forall q: Router, n: Name :: t.fwd(q, n) == if q == r then f(n) else s.fwd(q, n)
  {
    s.(fwd := (q: Router, n: Name) => if q == r then f(n) else s.fwd(q, n))
  }

  function WithBack(s: Net, r: Router, m: Name, x: seq<Token>): (t: Net)
    ensures t.side == s.side && t.srv == s.srv && t.rtr == s.rtr && t.fwd == s.fwd && t.registry == s.registry
    ensures forall q: Router, n: Name :: t.back(q, n) == if q == r && n == m then x else s.back(q, n)
  {
    s.(back := (q: Router, n: Name) => if q == r && n == m then x else s.back(q, n))
  }

  function PopFwd(s: Net, r: Router, m: Name): (t: Net)
    requires s.fwd(r, m) != []
    ensures t.side == s.side && t.srv == s.srv && t.rtr == s.rtr && t.back == s.back && t.registry == s.registry
    ensures forall q: Router, n: Name :: t.fwd(q, n) == if q == r && n == m then s.fwd(r, m)[1..] else s.fwd(q, n)
  {
    WithFwd(s, r, n => if n == m then s.fwd(r, m)[1..] else s.fwd(r, n))
  }

  /** The group indices under which member m is addressed, in sending order. */
  function Slots(groups: Groups, m: Name, n: nat): seq<nat>
    requires n <= |groups|
  {
    if n == 0 then [] else Slots(groups, m, n - 1) + seq(multiset(groups[n - 1])[m], _ => n - 1)
  }

  function Opens(comm: CommId, groups: Groups, m: Name): seq<DownEvent> {
    seq(|Slots(groups, m, |groups|)|, _ => Open(comm, m))
  }

  function Queries(comm: CommId, id: nat, attrs: seq<Attr>, groups: Groups, m: Name): seq<DownEvent> {
    var slots := Slots(groups, m, |groups|);
    seq(|slots|, k requires 0 <= k < |slots| => Query(comm, id, slots[k], attrs))
  }

  function Sizes(groups: Groups): (z: seq<nat>)
    ensures |z| == |groups| && forall g :: 0 <= g < |z| ==> z[g] == |groups[g]|
  {
    seq(|groups|, g requires 0 <= g < |groups| => |groups[g]|)
  }

  function NewRecord(c: Client, id: nat, comm: CommId, attrs: seq<Attr>, groups: Groups): Record {
    Record(c, id, comm, attrs, groups, Start(Get, |attrs|, Sizes(groups)), EmptyRows(|groups|))
  }

  ghost predicate Usable(groups: Groups) {
    groups != [] && forall g :: 0 <= g < |groups| ==> groups[g] != []
  }

  /** When a step may be taken. Only a client's use of a communicator and the choice of a new id are guarded. */
  ghost predicate Enabled(cfg: Cfg, s: Net, step: Step) {
    match step
    case Use(c, comm, groups, attrs) =>
      attrs != [] && Usable(groups) && (comm in s.registry ==> s.registry[comm] == Comm(External(c), groups))
    case AtRouter(c) => s.side(c).up != []
    case AtServer(r, m, newId, stamps) =>
      && s.fwd(r, m) != [] && m in cfg.started
      && (s.fwd(r, m)[0].Query? ==> newId !in s.registry && |stamps| == |s.fwd(r, m)[0].attrs|)
    case AtReply(r, m) => s.back(r, m) != []
    case Deliver(c) => s.side(c).down != []
  }

  /** Everything the code looks up while it takes the step is there, and what it asserts holds. */
  ghost predicate Defined(cfg: Cfg, s: Net, step: Step) {
    Found(cfg, s, step) && Asserted(cfg, s, step)
  }

  /**
    The asserts about the configuration: a communicator is opened for an object
    that is there, and all attributes of a request are read in the same way.
   */
  ghost predicate Asserted(cfg: Cfg, s: Net, step: Step) {
    step.AtServer? && s.fwd(step.rtr, step.srv) != [] ==>
      match s.fwd(step.rtr, step.srv)[0]
      case Open(_, member) => cfg.opens(member)
      case Query(comm, _, _, attrs) =>
        comm in s.srv(step.srv).comms ==> cfg.allows(s.srv(step.srv).comms[comm], attrs)
  }

  ghost predicate Found(cfg: Cfg, s: Net, step: Step) {
    match step
    case Use(_, _, _, _) => true
    case AtRouter(c) =>
      s.side(c).up != [] &&
      (match s.side(c).up[0]
       case Create(comm, _) => (c, comm) !in s.rtr(cfg.home(c)).comms
       case Ask(comm, _, _) => (c, comm) in s.rtr(cfg.home(c)).comms)
    case AtServer(r, m, _, _) =>
      s.fwd(r, m) != [] && (s.fwd(r, m)[0].Query? ==> s.fwd(r, m)[0].comm in s.srv(m).comms)
    case AtReply(r, m) =>
      s.back(r, m) != [] &&
      var t := s.back(r, m)[0];
      && t.id in s.rtr(r).infos
      && t.grp < |s.rtr(r).infos[t.id].groups|
      && Valid(s.rtr(r).infos[t.id].info)
      && |s.rtr(r).infos[t.id].info.sizes| == |s.rtr(r).infos[t.id].groups| == |s.rtr(r).infos[t.id].from|
      && |s.rtr(r).infos[t.id].info.respQ[t.grp]| < s.rtr(r).infos[t.id].info.sizes[t.grp]
      && ReplyFits(s.rtr(r).infos[t.id].info, t.reply)
    case Deliver(c) =>
      s.side(c).down != [] &&
      var a := s.side(c).down[0];
      && a.id in s.side(c).waiting
      && a.id in s.side(c).asked && s.side(c).asked[a.id].comm in s.registry
      && |a.resp.rows| == |a.resp.stamps| == |s.registry[s.side(c).asked[a.id].comm].groups|
      && (c.Daemon? ==> a.id in s.srv(c.name).fini && 0 < |a.resp.rows|)
  }

  function Asking(x: Side, comm: CommId, attrs: seq<Attr>, events: seq<UpEvent>): Side {
    x.(up := x.up + events + [Ask(comm, x.next, attrs)],
       asked := x.asked[x.next := Want(comm, attrs)],
       waiting := x.waiting + {x.next},
       next := x.next + 1)
  }

  /** DistComm::getValues with its lazy getChannel: create the communicator on first use, then ask. */
  ghost function ApplyUse(s: Net, client: Client, comm: CommId, groups: Groups, attrs: seq<Attr>): Net {
    var known := comm in s.registry;
    var x := Asking(s.side(client), comm, attrs, if known then [] else [Create(comm, groups)]);
    WithSide(s.(registry := if known then s.registry else s.registry[comm := Comm(client, groups)]), client, x)
  }

  ghost function ApplyAtRouter(cfg: Cfg, s: Net, c: Client): Net
    requires Defined(cfg, s, AtRouter(c))
  {
    var r := cfg.home(c);
    var x := s.side(c);
    var rs := s.rtr(r);
    var popped := WithSide(s, c, x.(up := x.up[1..]));
    match x.up[0]
    case Create(comm, groups) =>
      WithFwd(WithRouter(popped, r, rs.(comms := rs.comms[(c, comm) := groups])), r,
              m => s.fwd(r, m) + Opens(comm, groups, m))
    case Ask(comm, id, attrs) =>
      var groups := rs.comms[(c, comm)];
      WithFwd(WithRouter(popped, r, rs.(infos := rs.infos[rs.next := NewRecord(c, id, comm, attrs, groups)],
                                        next := rs.next + 1)), r,
              m => s.fwd(r, m) + Queries(comm, rs.next, attrs, groups, m))
  }

  ghost function ApplyAtServer(cfg: Cfg, s: Net, r: Router, m: Name, newId: CommId, stamps: seq<nat>): Net
    requires Defined(cfg, s, AtServer(r, m, newId, stamps))
  {
    var sv := s.srv(m);
    var popped := PopFwd(s, r, m);
    match s.fwd(r, m)[0]
    case Open(comm, member) => WithServer(popped, m, sv.(comms := sv.comms[comm := member]))
    case Query(comm, id, grp, attrs) =>
      var obj := sv.comms[comm];
      if !cfg.remote(obj, attrs) then
        WithBack(popped, r, m, s.back(r, m) + [Token(id, grp, m, Reply(cfg.row(obj, attrs), stamps, []))])
      else
        var key := s.side(Daemon(m)).next;
        var own := if sv.own.Some? then sv.own.value else newId;
        WithServer(ApplyUse(popped, Daemon(m), own, [cfg.members(obj)], attrs), m,
                   sv.(fini := sv.fini[key := Job(r, id, grp, attrs)], own := Some(own)))
  }

  ghost function Received(rec: Record, t: Token): Record
    requires t.grp < |rec.groups| == |rec.from| == |rec.info.sizes|
    requires Valid(rec.info) && |rec.info.respQ[t.grp]| < rec.info.sizes[t.grp] && ReplyFits(rec.info, t.reply)
  {
    ProcessValid(rec.info, t.grp, t.reply);
    rec.(info := Process(rec.info, t.grp, t.reply), from := rec.from[t.grp := rec.from[t.grp] + [t.from]])
  }

  ghost function ApplyAtReply(cfg: Cfg, s: Net, r: Router, m: Name): Net
    requires Defined(cfg, s, AtReply(r, m))
  {
    var t := s.back(r, m)[0];
    var rs := s.rtr(r);
    var rec := Received(rs.infos[t.id], t);
    var popped := WithBack(s, r, m, s.back(r, m)[1..]);
    if rec.info.pending == 0 then
      var x := s.side(rec.src);
      WithRouter(WithSide(popped, rec.src, x.(down := x.down + [Answer(rec.respId, rec.info.resp)])),
                 r, rs.(infos := rs.infos - {t.id}))
    else
      WithRouter(popped, r, rs.(infos := rs.infos[t.id := rec]))
  }

  ghost function ApplyDeliver(cfg: Cfg, s: Net, c: Client): Net
    requires Defined(cfg, s, Deliver(c))
  {
    var x := s.side(c);
    var a := x.down[0];
    var popped := WithSide(s, c, x.(down := x.down[1..], waiting := x.waiting - {a.id}, done := x.done + [a]));
    if c.External? then popped
    else
      var sv := s.srv(c.name);
      var job := sv.fini[a.id];
      WithBack(WithServer(popped, c.name, sv.(fini := sv.fini - {a.id})), job.rtr, c.name,
               s.back(job.rtr, c.name)
               + [Token(job.id, job.grp, c.name, Reply(a.resp.rows[0], a.resp.stamps[0], a.resp.errs))])
  }

  ghost function Apply(cfg: Cfg, s: Net, step: Step): Net
    requires Defined(cfg, s, step)
  {
    match step
    case Use(c, comm, groups, attrs) => ApplyUse(s, External(c), comm, groups, attrs)
    case AtRouter(c) => ApplyAtRouter(cfg, s, c)
    case AtServer(r, m, newId, stamps) => ApplyAtServer(cfg, s, r, m, newId, stamps)
    case AtReply(r, m) => ApplyAtReply(cfg, s, r, m)
    case Deliver(c) => ApplyDeliver(cfg, s, c)
  }
}
