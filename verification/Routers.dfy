/**
  One router of the network: its core's links, route table, registered servers
  and pending queues, and that its methods do what the network model says.
 */
module Routers {
  import opened Names
  import opened Circuits
  import opened Network
  import opened AppIds

  /** EventChannel*; its contents are kept by the router that writes to it. */
  type Chan = nat

  /** A tree link: the channel and the router ids it leads to. */
  datatype Link = Link(send: Chan, nidStart: nat, nidStop: nat)

  /** A RouterEvent with its packed ids. */
  datatype Msg = Msg(src: nat, dest: nat, body: Body)

  predicate Covers(link: Link, id: nat) { link.nidStart <= id <= link.nidStop }

  /** Link k is the one for router id: the first past link 0 whose range holds it, or link 0. */
  predicate Picked(links: seq<Link>, id: nat, k: nat) {
    && k < |links|
    && (forall i :: 1 <= i < (if k == 0 then |links| else k) ==> !Covers(links[i], id))
    && (k != 0 ==> Covers(links[k], id))
  }

  function Pick(links: seq<Link>, id: nat): (k: nat)
    requires links != []
    ensures Picked(links, id, k)
  {
    PickFrom(links, id, 1)
  }

  function PickFrom(links: seq<Link>, id: nat, i: nat): (k: nat)
    requires 1 <= i <= |links| && forall j :: 1 <= j < i ==> !Covers(links[j], id)
    ensures Picked(links, id, k)
    decreases |links| - i
  {
    if i == |links| then 0 else if Covers(links[i], id) then i else PickFrom(links, id, i + 1)
  }

  /** No two links are the one. */
  lemma PickedOnce(links: seq<Link>, id: nat, j: nat, k: nat)
    requires Picked(links, id, j) && Picked(links, id, k)
    ensures j == k
  {
    assert j != 0 ==> Covers(links[j], id);
    assert k != 0 ==> Covers(links[k], id);
  }

  /** TreeCore's m_rtrLinks. */
  class TreeCore {
    const links: seq<Link>

    constructor (links: seq<Link>)
      ensures this.links == links
    {
      this.links := links;
    }

    /** None only for a router without links. */
    method GetChannel(id: nat) returns (c: Option<Chan>)
      ensures c == if links == [] then None else Some(links[Pick(links, id)].send)
    {
      if links == [] { return None; }
      for i := 1 to |links|
        invariant forall j :: 1 <= j < i ==> !Covers(links[j], id)
      {
        if links[i].nidStart <= id && id <= links[i].nidStop {
          PickedOnce(links, id, i, Pick(links, id));
          return Some(links[i].send);
        }
      }
      PickedOnce(links, id, 0, Pick(links, id));
      return Some(links[0].send);
    }
  }

  // ----- reading packed ids as the network's addresses -----

  ghost function NameOf(table: map<Name, nat>, a: nat): (m: Name)
    ensures a in table.Values ==> m in table && table[m] == a
  {
    if a in table.Values then
      var m :| m in table && table[m] == a;
      m
    else []
  }

  ghost function AppOf(table: map<Name, nat>, a: nat): App {
    if ServerId(a) == NOBODY then RouterApp(RtrId(a)) else ServerApp(RtrId(a), NameOf(table, a))
  }

  ghost function Seen(table: map<Name, nat>, p: Msg): Packet {
    Packet(AppOf(table, p.src), AppOf(table, p.dest), p.body)
  }

  ghost function SeenAll(table: map<Name, nat>, q: seq<Msg>): (s: seq<Packet>)
    ensures |s| == |q| && forall k :: 0 <= k < |q| ==> s[k] == Seen(table, q[k])
  {
    seq(|q|, k requires 0 <= k < |q| => Seen(table, q[k]))
  }

  lemma SeenOneMore(table: map<Name, nat>, q: seq<Msg>, p: Msg)
    ensures SeenAll(table, q + [p]) == SeenAll(table, q) + [Seen(table, p)]
  {
  }

  /** A line of the route file. */
  datatype Route = Route(name: Name, rtr: nat, server: nat)

  /** Later lines win. */
  function TableOf(lines: seq<Route>): map<Name, nat> {
    if lines == [] then map[]
    else
      var last := lines[|lines| - 1];
      TableOf(lines[..|lines| - 1])[last.name := AppId(last.rtr, last.server)]
  }

  // ----- the routing state as a value -----

  /** Links, route table, registered servers, pending queues, and what is on each channel. */
  datatype View = View(rtrId: Router, links: seq<Link>, table: map<Name, nat>,
                       local: map<nat, Chan>, pend: map<nat, seq<Msg>>, sent: map<Chan, seq<Msg>>)

  function Queue(v: View, c: Chan): seq<Msg> { if c in v.sent then v.sent[c] else [] }

  function Pending(v: View, s: nat): seq<Msg> { if s in v.pend then v.pend[s] else [] }

  function PushTo(v: View, c: Chan, q: seq<Msg>): View { v.(sent := v.sent[c := Queue(v, c) + q]) }

  /** A destination the router can route: some other router through its links, or a server of its table. */
  predicate Routable(v: View, dest: nat) {
    if RtrId(dest) != v.rtrId then v.links != [] else ServerId(dest) != NOBODY
  }

  /** The tail of sendEvent. */
  function SendView(v: View, p: Msg): View
    requires Routable(v, p.dest)
  {
    var s := ServerId(p.dest);
    if RtrId(p.dest) != v.rtrId then PushTo(v, v.links[Pick(v.links, RtrId(p.dest))].send, [p])
    else if s in v.local then PushTo(v, v.local[s], [p])
    else v.(pend := v.pend[s := Pending(v, s) + [p]])
  }

  /** addServer and doPending. */
  function RegisterView(v: View, s: nat, c: Chan): View {
    PushTo(v, c, Pending(v, s)).(local := v.local[s := c], pend := v.pend - {s})
  }

  // ----- the part of the network a router holds -----

  /** The routers of a deployment and the one at the other end of each link. */
  datatype Place = Place(routers: iset<Router>, peers: seq<Router>)

  ghost predicate TableOk(x: Router, table: map<Name, nat>, pl: Place, topo: Topo) {
    && x in pl.routers && x < NOBODY
    && (forall m :: m in table ==>
          && table[m] <= MISS && ServerId(table[m]) != NOBODY
          && RtrId(table[m]) == topo.at(m) && topo.at(m) in pl.routers)
    && (forall m, n :: m in table && n in table && table[m] == table[n] ==> m == n)
  }

  ghost predicate Wired(x: Router, links: seq<Link>, pl: Place, topo: Topo) {
    && |pl.peers| == |links|
    && (forall d :: d in pl.routers && d != x ==> links != [] && topo.hop(x, d) == pl.peers[Pick(links, d)])
  }

  /** No two channels are the same. */
  ghost predicate Apart(links: seq<Link>, local: map<nat, Chan>, pl: Place) {
    && |pl.peers| == |links|
    && (forall i, j :: 0 <= i < j < |links| ==> links[i].send != links[j].send && pl.peers[i] != pl.peers[j])
    && (forall s, i :: s in local && 0 <= i < |links| ==> local[s] != links[i].send)
    && (forall s, t :: s in local && t in local && local[s] == local[t] ==> s == t)
  }

  ghost predicate LinkMirrors(v: View, pl: Place, w: Wire, k: nat)
    requires k < |pl.peers| == |v.links|
  {
    SeenAll(v.table, Queue(v, v.links[k].send)) == w.link(v.rtrId, pl.peers[k])
  }

  ghost predicate ServerMirrors(v: View, w: Wire, m: Name)
    requires m in v.table
  {
    var s := ServerId(v.table[m]);
    && (w.up(m) <==> s in v.local)
    && (w.up(m) ==> SeenAll(v.table, Queue(v, v.local[s])) == w.inbox(m))
    && SeenAll(v.table, Pending(v, s)) == w.pend(m)
  }

  /** The router's channels and pending queues are those of the network state. */
  ghost predicate Mirrors(v: View, pl: Place, topo: Topo, w: Wire) {
    && TableOk(v.rtrId, v.table, pl, topo) && Wired(v.rtrId, v.links, pl, topo) && Apart(v.links, v.local, pl)
    && (forall k :: 0 <= k < |pl.peers| ==> LinkMirrors(v, pl, w, k))
    && (forall m :: m in v.table && topo.at(m) == v.rtrId ==> ServerMirrors(v, w, m))
  }

  /** A destination of the deployment that this router does not process itself. */
  predicate Known(v: View, dest: nat) {
    dest <= MISS && (RtrId(dest) == v.rtrId ==> dest in v.table.Values)
  }

  lemma SameServer(v: View, pl: Place, topo: Topo, m: Name, n: Name)
    requires TableOk(v.rtrId, v.table, pl, topo) && m in v.table && n in v.table && topo.at(m) == topo.at(n)
    requires ServerId(v.table[m]) == ServerId(v.table[n])
    ensures m == n
  {
    Repack(v.table[m]);
    Repack(v.table[n]);
  }

  lemma SendAway(v: View, pl: Place, topo: Topo, w: Wire, p: Msg)
    requires Mirrors(v, pl, topo, w) && RtrId(p.dest) != v.rtrId && RtrId(p.dest) in pl.routers
    ensures Routable(v, p.dest)
    ensures Mirrors(SendView(v, p), pl, topo, Send(topo, w, v.rtrId, Seen(v.table, p)))
  {
    var x, y := SendView(v, p), Send(topo, w, v.rtrId, Seen(v.table, p));
    SeenOneMore(v.table, Queue(v, v.links[Pick(v.links, RtrId(p.dest))].send), p);
    forall k | 0 <= k < |pl.peers| ensures LinkMirrors(x, pl, y, k) { assert LinkMirrors(v, pl, w, k); }
    forall m | m in v.table && topo.at(m) == v.rtrId ensures ServerMirrors(x, y, m) { assert ServerMirrors(v, w, m); }
  }

  lemma SendHere(v: View, pl: Place, topo: Topo, w: Wire, p: Msg)
    requires Mirrors(v, pl, topo, w) && RtrId(p.dest) == v.rtrId && p.dest in v.table.Values
    ensures Routable(v, p.dest)
    ensures Mirrors(SendView(v, p), pl, topo, Send(topo, w, v.rtrId, Seen(v.table, p)))
  {
    var x, y := SendView(v, p), Send(topo, w, v.rtrId, Seen(v.table, p));
    SameLinks(v, x, pl, w, y);
    forall m | m in v.table && topo.at(m) == v.rtrId ensures ServerMirrors(x, y, m)
    {
      ServerSend(v, pl, topo, w, p, m);
    }
  }

  lemma SameLinks(v: View, x: View, pl: Place, w: Wire, y: Wire)
    requires |pl.peers| == |v.links| && x.links == v.links && x.table == v.table && x.rtrId == v.rtrId
        && y.link == w.link
    requires forall k :: 0 <= k < |pl.peers| ==> LinkMirrors(v, pl, w, k)
    requires forall k :: 0 <= k < |v.links| ==> Queue(x, v.links[k].send) == Queue(v, v.links[k].send)
    ensures forall k :: 0 <= k < |pl.peers| ==> LinkMirrors(x, pl, y, k)
  {
    forall k | 0 <= k < |pl.peers| ensures LinkMirrors(x, pl, y, k) { assert LinkMirrors(v, pl, w, k); }
  }

  lemma ServerSend(v: View, pl: Place, topo: Topo, w: Wire, p: Msg, m: Name)
    requires Mirrors(v, pl, topo, w) && RtrId(p.dest) == v.rtrId && p.dest in v.table.Values
    requires m in v.table && topo.at(m) == v.rtrId
    ensures Routable(v, p.dest)
    ensures ServerMirrors(SendView(v, p), Send(topo, w, v.rtrId, Seen(v.table, p)), m)
  {
    var n := NameOf(v.table, p.dest);
    var s := ServerId(p.dest);
    assert ServerMirrors(v, w, n) && ServerMirrors(v, w, m);
    if ServerId(v.table[m]) == s {
      SameServer(v, pl, topo, m, n);
      if s in v.local { SeenOneMore(v.table, Queue(v, v.local[s]), p); } else {
        SeenOneMore(v.table, Pending(v, s), p);
      }
    }
  }

  /** One sendEvent of a router is one Send of the network model. */
  lemma SendMirrors(v: View, pl: Place, topo: Topo, w: Wire, p: Msg)
    requires Mirrors(v, pl, topo, w) && Known(v, p.dest) && RtrId(p.dest) in pl.routers
    ensures Routable(v, p.dest)
    ensures Mirrors(SendView(v, p), pl, topo, Send(topo, w, v.rtrId, Seen(v.table, p)))
  {
    if RtrId(p.dest) != v.rtrId { SendAway(v, pl, topo, w, p); } else { SendHere(v, pl, topo, w, p); }
  }

  /** Registering a server and flushing its queue is the network's registration step. */
  lemma RegisterMirrors(v: View, pl: Place, topo: Topo, w: Wire, m: Name, c: Chan)
    requires Mirrors(v, pl, topo, w) && m in v.table && topo.at(m) == v.rtrId
    requires !w.up(m) && w.inbox(m) == []
    requires Queue(v, c) == [] && (forall s :: s in v.local ==> v.local[s] != c)
    requires forall i :: 0 <= i < |v.links| ==> v.links[i].send != c
    requires WDefined(topo, w, WRegister(m))
    ensures Mirrors(RegisterView(v, ServerId(v.table[m]), c), pl, topo, WApply(topo, w, WRegister(m)))
  {
    var s := ServerId(v.table[m]);
    var x, y := RegisterView(v, s, c), WApply(topo, w, WRegister(m));
    SameLinks(v, x, pl, w, y);
    forall n | n in v.table && topo.at(n) == v.rtrId ensures ServerMirrors(x, y, n)
    {
      ServerRegister(v, pl, topo, w, m, c, n);
    }
  }

  lemma ServerRegister(v: View, pl: Place, topo: Topo, w: Wire, m: Name, c: Chan, n: Name)
    requires Mirrors(v, pl, topo, w) && m in v.table && topo.at(m) == v.rtrId
    requires !w.up(m) && w.inbox(m) == []
    requires Queue(v, c) == [] && (forall s :: s in v.local ==> v.local[s] != c)
    requires n in v.table && topo.at(n) == v.rtrId
    requires WDefined(topo, w, WRegister(m))
    ensures ServerMirrors(RegisterView(v, ServerId(v.table[m]), c), WApply(topo, w, WRegister(m)), n)
  {
    assert ServerMirrors(v, w, n);
    if ServerId(v.table[n]) == ServerId(v.table[m]) {
      SameServer(v, pl, topo, m, n);
      OwnRegister(v, topo, w, m, c);
    } else {
      OtherRegister(v, topo, w, m, c, n);
    }
  }

  lemma OwnRegister(v: View, topo: Topo, w: Wire, m: Name, c: Chan)
    requires m in v.table && ServerMirrors(v, w, m) && w.inbox(m) == [] && Queue(v, c) == []
    requires WDefined(topo, w, WRegister(m))
    ensures ServerMirrors(RegisterView(v, ServerId(v.table[m]), c), WApply(topo, w, WRegister(m)), m)
  {
    var s := ServerId(v.table[m]);
    var x, y := RegisterView(v, s, c), WApply(topo, w, WRegister(m));
    assert Queue(x, c) == Pending(v, s);
    assert Pending(x, s) == [];
    assert y.inbox(m) == w.pend(m) && y.pend(m) == [];
  }

  lemma OtherRegister(v: View, topo: Topo, w: Wire, m: Name, c: Chan, n: Name)
    requires m in v.table && n in v.table && ServerMirrors(v, w, n) && ServerId(v.table[n]) != ServerId(v.table[m])
        && m != n
    requires forall s :: s in v.local ==> v.local[s] != c
    requires WDefined(topo, w, WRegister(m))
    ensures ServerMirrors(RegisterView(v, ServerId(v.table[m]), c), WApply(topo, w, WRegister(m)), n)
  {
    var s, t := ServerId(v.table[m]), ServerId(v.table[n]);
    var x, y := RegisterView(v, s, c), WApply(topo, w, WRegister(m));
    assert Pending(x, t) == Pending(v, t);
    assert t in v.local ==> Queue(x, v.local[t]) == Queue(v, v.local[t]);
  }

  // ----- the router -----

  class RouterNode {
    const rtrId: Router
    const core: TreeCore
    var routeTable: map<Name, nat>
    /** m_localMap; None is the NULL that a lookup of an unknown id leaves behind. */
    var localMap: map<nat, Option<Chan>>
    var pendingEvents: map<nat, seq<Msg>>
    var sent: map<Chan, seq<Msg>>

    ghost function State(): View
      reads this
    {
      View(rtrId, core.links, routeTable,
           map s | s in localMap && localMap[s].Some? :: localMap[s].value, pendingEvents, sent)
    }

    constructor (rtrId: Router, core: TreeCore, lines: seq<Route>)
      ensures State() == View(rtrId, core.links, TableOf(lines), map[], map[], map[])
    {
      this.rtrId, this.core := rtrId, core;
      routeTable, localMap, pendingEvents, sent := map[], map[], map[], map[];
      new;
      InitRouteTable(lines);
    }

    method InitRouteTable(lines: seq<Route>)
      requires routeTable == map[]
      modifies this`routeTable
      ensures routeTable == TableOf(lines)
    {
      for i := 0 to |lines|
        invariant routeTable == TableOf(lines[..i])
      {
        assert lines[..i + 1][..i] == lines[..i];
        routeTable := routeTable[lines[i].name := AppId(lines[i].rtr, lines[i].server)];
      }
      assert lines[..|lines|] == lines;
    }

    method Push(c: Chan, p: Msg)
      modifies this`sent
      ensures State() == PushTo(old(State()), c, [p])
    {
      sent := sent[c := (if c in sent then sent[c] else []) + [p]];
    }

    /** findServerChan; m_localMap[id] inserts what it does not find. */
    method FindServerChan(id: nat) returns (c: Option<Chan>)
      modifies this`localMap
      ensures State() == old(State())
      ensures c == if id != NOBODY && id in State().local then Some(State().local[id]) else None
    {
      if id == NOBODY { return None; }
      if id !in localMap { localMap := localMap[id := None]; }
      c := localMap[id];
    }

    /** The tail of sendEvent: towards the destination, or kept until the server is there. */
    method Dispatch(p: Msg)
      requires Routable(State(), p.dest)
      modifies this`sent, this`localMap, this`pendingEvents
      ensures State() == SendView(old(State()), p)
    {
      var c: Option<Chan>;
      if RtrId(p.dest) == rtrId {
        c := FindServerChan(ServerId(p.dest));
      } else {
        c := core.GetChannel(RtrId(p.dest));
      }
      if c.None? {
        var s := ServerId(p.dest);
        pendingEvents := pendingEvents[s := (if s in pendingEvents then pendingEvents[s] else []) + [p]];
      } else {
        Push(c.value, p);
      }
    }

    /** sendEvent for an event that is not a router event yet; false when it is dropped. */
    method SendTo(name: Name, body: Body) returns (ok: bool)
      requires Routable(State(), FindRoute(routeTable, name))
      modifies this`sent, this`localMap, this`pendingEvents
      ensures ok <==> !(name in routeTable && routeTable[name] == AppId(0, NOBODY))
      ensures State() == if ok then SendView(old(State()),
          Msg(AppId(rtrId, NOBODY), FindRoute(routeTable, name), body)) else old(State())
    {
      var dest := FindRoute(routeTable, name);
      DropsIff(routeTable, name);
      if dest == 0xffff_ffff { return false; }
      Dispatch(Msg(AppId(rtrId, NOBODY), dest, body));
      return true;
    }

    /** sendEvent for a router event: a reply for this router is handed back, everything else travels on. */
    method Forward(p: Msg) returns (mine: bool)
      requires (RtrId(p.dest) == rtrId && ServerId(p.dest) == NOBODY) || Routable(State(), p.dest)
      modifies this`sent, this`localMap, this`pendingEvents
      ensures mine <==> RtrId(p.dest) == rtrId && ServerId(p.dest) == NOBODY
      ensures State() == if mine then old(State()) else SendView(old(State()), p)
    {
      if RtrId(p.dest) == rtrId && ServerId(p.dest) == NOBODY { return true; }
      Dispatch(p);
      return false;
    }

    /** addServer followed by doPending. */
    method ServerConnect(name: Name, ec: Chan)
      requires name in routeTable && ServerId(routeTable[name]) != NOBODY
      modifies this
      ensures State() == RegisterView(old(State()), ServerId(old(routeTable)[name]), ec)
    {
      var id := ServerId(FindRoute(routeTable, name));
      localMap := localMap[id := Some(ec)];
      if id in pendingEvents {
        DoPending(id, ec);
      } else {
        assert Queue(old(State()), ec) + [] == Queue(old(State()), ec);
        sent := sent[ec := if ec in sent then sent[ec] else []];
        assert old(pendingEvents) - {id} == pendingEvents;
      }
      assert State().local == old(State()).local[id := ec];
    }

    method DoPending(id: nat, ec: Chan)
      requires id in pendingEvents
      modifies this`pendingEvents, this`sent
      ensures pendingEvents == old(pendingEvents) - {id}
      ensures sent == old(sent)[ec := (if ec in old(sent) then old(sent)[ec] else []) + old(pendingEvents)[id]]
    {
      ghost var was := pendingEvents[id];
      ghost var before := if ec in sent then sent[ec] else [];
      ghost var flushed: seq<Msg> := [];
      sent := sent[ec := if ec in sent then sent[ec] else []];
      assert before + flushed == before;
      while pendingEvents[id] != []
        invariant id in pendingEvents && pendingEvents == old(pendingEvents)[id := pendingEvents[id]]
        invariant was == flushed + pendingEvents[id]
        invariant sent == old(sent)[ec := before + flushed]
        decreases |pendingEvents[id]|
      {
        var front := pendingEvents[id][0];
        sent := sent[ec := sent[ec] + [front]];
        flushed := flushed + [front];
        assert sent[ec] == before + flushed;
        pendingEvents := pendingEvents[id := pendingEvents[id][1..]];
      }
      assert flushed == was;
      pendingEvents := pendingEvents - {id};
    }
  }
}
