/**
  The network behaves like the circuits: what is between a router and a server,
  read from the server's inbox back through pending queue and links to the
  router, is the circuit's queue. Forwarding and flushing leave it unchanged.
 */
module Refinement {
  import opened Names
  import opened Circuits
  import opened Network

  // ----- what belongs to one circuit -----

  ghost predicate IsDown(p: Packet, r: Router, m: Name) {
    p.src == RouterApp(r) && p.dest.ServerApp? && p.dest.name == m && p.body.Down?
  }

  ghost predicate IsUp(p: Packet, r: Router, m: Name) {
    p.dest == RouterApp(r) && p.src.ServerApp? && p.src.name == m && p.body.Up?
  }

  ghost function DownsOf(q: seq<Packet>, r: Router, m: Name): seq<DownEvent> {
    if q == [] then []
    else (if IsDown(q[0], r, m) then [q[0].body.e] else []) + DownsOf(q[1..], r, m)
  }

  ghost function UpsOf(q: seq<Packet>, r: Router, m: Name): seq<Token> {
    if q == [] then []
    else (if IsUp(q[0], r, m) then [q[0].body.t] else []) + UpsOf(q[1..], r, m)
  }

  lemma {:induction false} DownsAppend(a: seq<Packet>, b: seq<Packet>, r: Router, m: Name)
    ensures DownsOf(a + b, r, m) == DownsOf(a, r, m) + DownsOf(b, r, m)
  {
    if a == [] {
      assert a + b == b;
    } else {
      assert (a + b)[1..] == a[1..] + b && (a + b)[0] == a[0];
      DownsAppend(a[1..], b, r, m);
      Regroup(if IsDown(a[0], r, m) then [a[0].body.e] else [], DownsOf(a[1..], r, m), DownsOf(b, r, m));
    }
  }

  lemma {:induction false} UpsAppend(a: seq<Packet>, b: seq<Packet>, r: Router, m: Name)
    ensures UpsOf(a + b, r, m) == UpsOf(a, r, m) + UpsOf(b, r, m)
  {
    if a == [] {
      assert a + b == b;
    } else {
      assert (a + b)[1..] == a[1..] + b && (a + b)[0] == a[0];
      UpsAppend(a[1..], b, r, m);
      Regroup(if IsUp(a[0], r, m) then [a[0].body.t] else [], UpsOf(a[1..], r, m), UpsOf(b, r, m));
    }
  }

  lemma DownsOne(q: seq<Packet>, p: Packet, r: Router, m: Name)
    ensures DownsOf(q + [p], r, m) == DownsOf(q, r, m) + if IsDown(p, r, m) then [p.body.e] else []
  {
    DownsAppend(q, [p], r, m);
    assert [p][1..] == [];
    assert DownsOf([p], r, m) == (if IsDown(p, r, m) then [p.body.e] else []) + DownsOf([], r, m);
  }

  lemma UpsOne(q: seq<Packet>, p: Packet, r: Router, m: Name)
    ensures UpsOf(q + [p], r, m) == UpsOf(q, r, m) + if IsUp(p, r, m) then [p.body.t] else []
  {
    UpsAppend(q, [p], r, m);
    assert [p][1..] == [];
    assert UpsOf([p], r, m) == (if IsUp(p, r, m) then [p.body.t] else []) + UpsOf([], r, m);
  }

  // ----- the queue ahead of a router -----

  /** What the server and its pending queue hold of one circuit. */
  ghost function DownEnd(w: Wire, r: Router, m: Name): seq<DownEvent> {
    DownsOf(w.inbox(m), r, m) + DownsOf(w.pend(m), r, m)
  }

  /** The part of one circuit that router x has put on its link towards the server. */
  ghost function DownSegment(topo: Topo, w: Wire, x: Router, r: Router, m: Name): seq<DownEvent> {
    DownsOf(w.link(x, topo.hop(x, topo.at(m))), r, m)
  }

  ghost function UpSegment(topo: Topo, w: Wire, x: Router, r: Router, m: Name): seq<Token> {
    UpsOf(w.link(x, topo.hop(x, r)), r, m)
  }

  /** Events from router r for server m that have left router x towards it, oldest first. */
  ghost function DownFrom(topo: Topo, w: Wire, x: Router, r: Router, m: Name): seq<DownEvent>
    requires Sound(topo)
    decreases topo.dist(x, topo.at(m))
  {
    if x == topo.at(m) then DownEnd(w, r, m)
    else DownFrom(topo, w, topo.hop(x, topo.at(m)), r, m) + DownSegment(topo, w, x, r, m)
  }

  /** Replies of server m for router r that have left router x towards it, oldest first. */
  ghost function UpFrom(topo: Topo, w: Wire, x: Router, r: Router, m: Name): seq<Token>
    requires Sound(topo)
    decreases topo.dist(x, r)
  {
    if x == r then []
    else UpFrom(topo, w, topo.hop(x, r), r, m) + UpSegment(topo, w, x, r, m)
  }

  ghost function FwdOf(topo: Topo, w: Wire): (Router, Name) -> seq<DownEvent>
    requires Sound(topo)
  {
    (r: Router, m: Name) => DownFrom(topo, w, r, r, m)
  }

  ghost function BackOf(topo: Topo, w: Wire): (Router, Name) -> seq<Token>
    requires Sound(topo)
  {
    (r: Router, m: Name) => UpFrom(topo, w, topo.at(m), r, m) + UpsOf(w.outbox(m), r, m)
  }

  /** The circuits a network state stands for. */
  ghost function Abstract(topo: Topo, w: Wire): Net
    requires Sound(topo)
  {
    Core(w, FwdOf(topo, w), BackOf(topo, w))
  }

  /** Equal in every context, server, router and circuit. */
  ghost predicate Same(a: Net, b: Net) {
    && a.registry == b.registry
    && (forall c :: a.side(c) == b.side(c))
    && (forall m :: a.srv(m) == b.srv(m))
    && (forall r: Router :: a.rtr(r) == b.rtr(r))
    && (forall r: Router, m :: a.fwd(r, m) == b.fwd(r, m))
    && (forall r: Router, m :: a.back(r, m) == b.back(r, m))
  }

  // ----- where packets may be -----

  /** x lies on the way from a to d. */
  ghost predicate OnWay(topo: Topo, a: Router, x: Router, d: Router)
    requires Sound(topo)
    decreases topo.dist(a, d)
  {
    a == x || (a != d && OnWay(topo, topo.hop(a, d), x, d))
  }

  ghost predicate PacketOk(topo: Topo, p: Packet) {
    if p.body.Down? then p.src.RouterApp? && p.dest.ServerApp? && p.dest.rtr == topo.at(p.dest.name)
    else p.dest.RouterApp? && p.src.ServerApp? && p.src.rtr == topo.at(p.src.name)
  }

  /** The packet may be handled at router x. */
  ghost predicate At(topo: Topo, x: Router, p: Packet)
    requires Sound(topo)
  {
    PacketOk(topo, p) && OnWay(topo, p.src.rtr, x, p.dest.rtr)
  }

  ghost predicate LinkOk(topo: Topo, x: Router, y: Router, p: Packet)
    requires Sound(topo)
  {
    At(topo, x, p) && x != p.dest.rtr && y == topo.hop(x, p.dest.rtr)
  }

  ghost predicate ServerQueuesOk(topo: Topo, w: Wire, m: Name) {
    && (forall k :: 0 <= k < |w.inbox(m)| ==>
          PacketOk(topo, w.inbox(m)[k]) && w.inbox(m)[k].dest == ServerApp(topo.at(m), m))
    && (forall k :: 0 <= k < |w.pend(m)| ==>
          PacketOk(topo, w.pend(m)[k]) && w.pend(m)[k].dest == ServerApp(topo.at(m), m))
    && (forall k :: 0 <= k < |w.outbox(m)| ==>
          PacketOk(topo, w.outbox(m)[k]) && w.outbox(m)[k].src == ServerApp(topo.at(m), m))
    && (w.up(m) ==> w.pend(m) == [] && m in topo.cfg.started)
    && (!w.up(m) ==> w.inbox(m) == [])
  }

  ghost predicate Placed(topo: Topo, w: Wire)
    requires Sound(topo)
  {
    && (forall x: Router, y: Router, k :: 0 <= k < |w.link(x, y)| ==> LinkOk(topo, x, y, w.link(x, y)[k]))
    && (forall m :: ServerQueuesOk(topo, w, m))
  }

  lemma {:induction false} WayOn(topo: Topo, a: Router, x: Router, d: Router)
    requires Sound(topo) && OnWay(topo, a, x, d) && x != d
    ensures OnWay(topo, a, topo.hop(x, d), d)
    decreases topo.dist(a, d)
  {
    if a == x {
      assert OnWay(topo, topo.hop(a, d), topo.hop(x, d), d);
    } else {
      WayOn(topo, topo.hop(a, d), x, d);
    }
  }

  /** A router on the way is never farther from the end than where the way starts. */
  lemma {:induction false} WayCloser(topo: Topo, a: Router, x: Router, d: Router)
    requires Sound(topo) && OnWay(topo, a, x, d)
    ensures topo.dist(x, d) <= topo.dist(a, d)
    decreases topo.dist(a, d)
  {
    if a != x { WayCloser(topo, topo.hop(a, d), x, d); }
  }

  // ----- sending at one router -----

  lemma Regroup<T>(a: seq<T>, b: seq<T>, c: seq<T>)
    ensures a + (b + c) == (a + b) + c
  {
  }

  lemma SendDownEnd(topo: Topo, w: Wire, x: Router, p: Packet, r: Router, m: Name)
    requires PacketOk(topo, p) && p.dest != RouterApp(x) && ServerQueuesOk(topo, w, m)
    ensures DownEnd(Send(topo, w, x, p), r, m)
         == DownEnd(w, r, m) + if IsDown(p, r, m) && x == topo.at(m) then [p.body.e] else []
  {
    if p.dest.ServerApp? && p.dest.name == m {
      DownsOne(w.inbox(m), p, r, m);
      DownsOne(w.pend(m), p, r, m);
    }
  }

  lemma SendDownSegment(topo: Topo, w: Wire, x: Router, p: Packet, u: Router, r: Router, m: Name)
    requires PacketOk(topo, p) && p.dest != RouterApp(x)
    ensures DownSegment(topo, Send(topo, w, x, p), u, r, m)
         == DownSegment(topo, w, u, r, m)
            + if IsDown(p, r, m) && u == x && x != topo.at(m) then [p.body.e] else []
  {
    DownsOne(w.link(x, topo.hop(x, p.dest.rtr)), p, r, m);
  }

  lemma SendUpSegment(topo: Topo, w: Wire, x: Router, p: Packet, u: Router, r: Router, m: Name)
    requires PacketOk(topo, p) && p.dest != RouterApp(x)
    ensures UpSegment(topo, Send(topo, w, x, p), u, r, m)
         == UpSegment(topo, w, u, r, m) + if IsUp(p, r, m) && u == x && x != r then [p.body.t] else []
  {
    UpsOne(w.link(x, topo.hop(x, p.dest.rtr)), p, r, m);
  }

  /** Nothing nearer the server than x changes when x sends. */
  lemma {:induction false} SendDownSame(topo: Topo, w: Wire, x: Router, p: Packet, u: Router, r: Router, m: Name)
    requires Sound(topo) && PacketOk(topo, p) && p.dest != RouterApp(x) && ServerQueuesOk(topo, w, m)
    requires !IsDown(p, r, m) || topo.dist(u, topo.at(m)) < topo.dist(x, topo.at(m))
    ensures DownFrom(topo, Send(topo, w, x, p), u, r, m) == DownFrom(topo, w, u, r, m)
    decreases topo.dist(u, topo.at(m))
  {
    if u == topo.at(m) {
      SendDownEnd(topo, w, x, p, r, m);
    } else {
      SendDownSegment(topo, w, x, p, u, r, m);
      SendDownSame(topo, w, x, p, topo.hop(u, topo.at(m)), r, m);
    }
  }

  /** What has left x towards the server grows by the packet x sends. */
  lemma SendDown(topo: Topo, w: Wire, x: Router, p: Packet, u: Router, r: Router, m: Name)
    requires Sound(topo) && PacketOk(topo, p) && p.dest != RouterApp(x) && ServerQueuesOk(topo, w, m)
    requires !IsDown(p, r, m) || u == x || topo.dist(u, topo.at(m)) < topo.dist(x, topo.at(m))
    ensures DownFrom(topo, Send(topo, w, x, p), u, r, m)
         == DownFrom(topo, w, u, r, m) + if IsDown(p, r, m) && u == x then [p.body.e] else []
  {
    if !IsDown(p, r, m) || u != x {
      SendDownSame(topo, w, x, p, u, r, m);
    } else if x == topo.at(m) {
      SendDownEnd(topo, w, x, p, r, m);
    } else {
      var next := topo.hop(x, topo.at(m));
      SendDownSame(topo, w, x, p, next, r, m);
      SendDownSegment(topo, w, x, p, x, r, m);
      Regroup(DownFrom(topo, w, next, r, m), DownSegment(topo, w, x, r, m), [p.body.e]);
    }
  }

  lemma {:induction false} SendUpSame(topo: Topo, w: Wire, x: Router, p: Packet, u: Router, r: Router, m: Name)
    requires Sound(topo) && PacketOk(topo, p) && p.dest != RouterApp(x)
    requires !IsUp(p, r, m) || topo.dist(u, r) < topo.dist(x, r)
    ensures UpFrom(topo, Send(topo, w, x, p), u, r, m) == UpFrom(topo, w, u, r, m)
    decreases topo.dist(u, r)
  {
    if u != r {
      SendUpSegment(topo, w, x, p, u, r, m);
      SendUpSame(topo, w, x, p, topo.hop(u, r), r, m);
    }
  }

  lemma SendUp(topo: Topo, w: Wire, x: Router, p: Packet, u: Router, r: Router, m: Name)
    requires Sound(topo) && PacketOk(topo, p) && p.dest != RouterApp(x)
    requires !IsUp(p, r, m) || u == x || topo.dist(u, r) < topo.dist(x, r)
    ensures UpFrom(topo, Send(topo, w, x, p), u, r, m)
         == UpFrom(topo, w, u, r, m) + if IsUp(p, r, m) && u == x then [p.body.t] else []
  {
    if !IsUp(p, r, m) || u != x {
      SendUpSame(topo, w, x, p, u, r, m);
    } else {
      var next := topo.hop(x, r);
      SendUpSame(topo, w, x, p, next, r, m);
      SendUpSegment(topo, w, x, p, x, r, m);
      Regroup(UpFrom(topo, w, next, r, m), UpSegment(topo, w, x, r, m), [p.body.t]);
    }
  }

  // ----- a fan-out -----

  ghost predicate FromRouter(topo: Topo, x: Router, ps: seq<Packet>) {
    forall k :: 0 <= k < |ps| ==> PacketOk(topo, ps[k]) && ps[k].src == RouterApp(x) && ps[k].body.Down?
  }

  lemma {:induction false} SendPlaced(topo: Topo, w: Wire, x: Router, p: Packet)
    requires Sound(topo) && Placed(topo, w) && At(topo, x, p) && p.dest != RouterApp(x)
    ensures Placed(topo, Send(topo, w, x, p))
  {
    var v := Send(topo, w, x, p);
    forall a: Router, b: Router, k | 0 <= k < |v.link(a, b)| ensures LinkOk(topo, a, b, v.link(a, b)[k]) {
      if k < |w.link(a, b)| { assert v.link(a, b)[k] == w.link(a, b)[k] && LinkOk(topo, a, b, w.link(a, b)[k]); }
    }
    forall m ensures ServerQueuesOk(topo, v, m) { assert ServerQueuesOk(topo, w, m); }
  }

  lemma {:induction false} SendAllFrame(topo: Topo, w: Wire, x: Router, ps: seq<Packet>)
    requires Sound(topo) && Placed(topo, w) && FromRouter(topo, x, ps)
    ensures var v := SendAll(topo, w, x, ps);
            && Placed(topo, v)
            && v.side == w.side && v.srv == w.srv && v.rtr == w.rtr && v.registry == w.registry
            && v.outbox == w.outbox
  {
    if ps != [] {
      var n := |ps| - 1;
      SendAllFrame(topo, w, x, ps[..n]);
      SendPlaced(topo, SendAll(topo, w, x, ps[..n]), x, ps[n]);
    }
  }

  lemma {:induction false} SendAllDown(topo: Topo, w: Wire, x: Router, ps: seq<Packet>, r: Router, m: Name)
    requires Sound(topo) && Placed(topo, w) && FromRouter(topo, x, ps)
    ensures DownFrom(topo, SendAll(topo, w, x, ps), r, r, m) == DownFrom(topo, w, r, r, m) + DownsOf(ps, r, m)
  {
    if ps != [] {
      var n := |ps| - 1;
      var v0 := SendAll(topo, w, x, ps[..n]);
      SendAllDown(topo, w, x, ps[..n], r, m);
      SendAllFrame(topo, w, x, ps[..n]);
      assert ServerQueuesOk(topo, v0, m);
      SendDown(topo, v0, x, ps[n], r, r, m);
      DownsOne(ps[..n], ps[n], r, m);
      hide DownFrom, DownsOf, Placed, FromRouter, Sound, Send, ServerQueuesOk;
      assert ps == ps[..n] + [ps[n]];
      Regroup(DownFrom(topo, w, r, r, m), DownsOf(ps[..n], r, m), if IsDown(ps[n], r, m) then [ps[n].body.e] else []);
    }
  }

  lemma {:induction false} SendAllUp(topo: Topo, w: Wire, x: Router, ps: seq<Packet>, u: Router, r: Router, m: Name)
    requires Sound(topo) && FromRouter(topo, x, ps)
    ensures UpFrom(topo, SendAll(topo, w, x, ps), u, r, m) == UpFrom(topo, w, u, r, m)
  {
    if ps != [] {
      var n := |ps| - 1;
      SendAllUp(topo, w, x, ps[..n], u, r, m);
      SendUpSame(topo, SendAll(topo, w, x, ps[..n]), x, ps[n], u, r, m);
    }
  }

  lemma SendAllEffect(topo: Topo, w: Wire, x: Router, ps: seq<Packet>)
    requires Sound(topo) && Placed(topo, w) && FromRouter(topo, x, ps)
    ensures var v := SendAll(topo, w, x, ps);
            && Placed(topo, v)
            && v.side == w.side && v.srv == w.srv && v.rtr == w.rtr && v.registry == w.registry
            && v.outbox == w.outbox
            && (forall r: Router, m :: DownFrom(topo, v, r, r, m) == DownFrom(topo, w, r, r, m) + DownsOf(ps, r, m))
            && (forall u: Router, r: Router, m :: UpFrom(topo, v, u, r, m) == UpFrom(topo, w, u, r, m))
  {
    SendAllFrame(topo, w, x, ps);
    forall r: Router, m { SendAllDown(topo, w, x, ps, r, m); }
    forall u: Router, r: Router, m { SendAllUp(topo, w, x, ps, u, r, m); }
  }

  function Repeat<T>(n: nat, x: T): (s: seq<T>)
    ensures |s| == n && forall k :: 0 <= k < n ==> s[k] == x
  {
    seq(n, _ => x)
  }

  lemma {:induction false} GroupDowns(topo: Topo, r: Router, members: seq<Name>, e: Name -> DownEvent, q: Router,
                                      m: Name)
    ensures DownsOf(GroupPackets(topo, r, members, e), q, m) == if q == r then Repeat(multiset(members)[m], e(m))
        else []
  {
    var ps := GroupPackets(topo, r, members, e);
    if members != [] {
      GroupDowns(topo, r, members[1..], e, q, m);
      assert ps[1..] == GroupPackets(topo, r, members[1..], e);
      OneMore(members, m);
      assert ps[0] == ToMember(topo, r, members[0], e(members[0]));
      assert Repeat(multiset(members)[m], e(m))
          == (if members[0] == m then [e(m)] else []) + Repeat(multiset(members[1..])[m], e(m));
    }
  }

  lemma OneMore(members: seq<Name>, m: Name)
    requires members != []
    ensures multiset(members)[m] == multiset(members[1..])[m] + if members[0] == m then 1 else 0
  {
    assert members == [members[0]] + members[1..];
  }

  lemma FromRouterAppend(topo: Topo, r: Router, a: seq<Packet>, b: seq<Packet>)
    requires FromRouter(topo, r, a) && FromRouter(topo, r, b)
    ensures FromRouter(topo, r, a + b)
  {
  }

  lemma {:induction false} OpensFromRouter(topo: Topo, r: Router, comm: CommId, groups: Groups, n: nat)
    requires n <= |groups|
    ensures FromRouter(topo, r, OpenPackets(topo, r, comm, groups, n))
  {
    if n != 0 {
      OpensFromRouter(topo, r, comm, groups, n - 1);
      FromRouterAppend(topo, r, OpenPackets(topo, r, comm, groups, n - 1),
          GroupPackets(topo, r, groups[n - 1], OpenFor(comm)));
    }
  }

  lemma {:induction false} QueriesFromRouter(topo: Topo, r: Router, comm: CommId, id: nat, attrs: seq<Attr>,
                                             groups: Groups, n: nat)
    requires n <= |groups|
    ensures FromRouter(topo, r, QueryPackets(topo, r, comm, id, attrs, groups, n))
  {
    if n != 0 {
      QueriesFromRouter(topo, r, comm, id, attrs, groups, n - 1);
      FromRouterAppend(topo, r, QueryPackets(topo, r, comm, id, attrs, groups, n - 1),
                       GroupPackets(topo, r, groups[n - 1], QueryFor(comm, id, n - 1, attrs)));
    }
  }

  lemma {:induction false} OpenDowns(topo: Topo, r: Router, comm: CommId, groups: Groups, n: nat, q: Router, m: Name)
    requires n <= |groups|
    ensures DownsOf(OpenPackets(topo, r, comm, groups, n), q, m)
         == if q == r then Repeat(|Slots(groups, m, n)|, Open(comm, m)) else []
  {
    if n != 0 {
      OpenDowns(topo, r, comm, groups, n - 1, q, m);
      var e := OpenFor(comm);
      GroupDowns(topo, r, groups[n - 1], e, q, m);
      DownsAppend(OpenPackets(topo, r, comm, groups, n - 1), GroupPackets(topo, r, groups[n - 1], e), q, m);
    }
  }

  /** The queries a list of group indices stands for. */
  function QueriesAt(comm: CommId, id: nat, attrs: seq<Attr>, slots: seq<nat>): (s: seq<DownEvent>)
    ensures |s| == |slots| && forall k :: 0 <= k < |s| ==> s[k] == Query(comm, id, slots[k], attrs)
  {
    seq(|slots|, k requires 0 <= k < |slots| => Query(comm, id, slots[k], attrs))
  }

  lemma QueriesAppend(comm: CommId, id: nat, attrs: seq<Attr>, slots: seq<nat>, c: nat, g: nat)
    ensures QueriesAt(comm, id, attrs, slots + seq(c, _ => g))
         == QueriesAt(comm, id, attrs, slots) + Repeat(c, Query(comm, id, g, attrs))
  {
  }

  lemma {:induction false} QueryDowns(topo: Topo, r: Router, comm: CommId, id: nat, attrs: seq<Attr>, groups: Groups,
                                      n: nat, q: Router, m: Name)
    requires n <= |groups|
    ensures DownsOf(QueryPackets(topo, r, comm, id, attrs, groups, n), q, m)
         == if q == r then QueriesAt(comm, id, attrs, Slots(groups, m, n)) else []
  {
    if n != 0 {
      QueryDowns(topo, r, comm, id, attrs, groups, n - 1, q, m);
      assert Slots(groups, m, n) == Slots(groups, m, n - 1) + seq(multiset(groups[n - 1])[m], _ => n - 1);
      assert QueryPackets(topo, r, comm, id, attrs, groups, n)
          == QueryPackets(topo, r, comm, id, attrs, groups, n - 1)
             + GroupPackets(topo, r, groups[n - 1], QueryFor(comm, id, n - 1, attrs));
      hide GroupPackets, QueriesAt, DownsOf, QueryFor, QueryPackets, Slots, Repeat;
      var e := QueryFor(comm, id, n - 1, attrs);
      GroupDowns(topo, r, groups[n - 1], e, q, m);
      DownsAppend(QueryPackets(topo, r, comm, id, attrs, groups, n - 1), GroupPackets(topo, r, groups[n - 1], e), q, m);
      QueriesAppend(comm, id, attrs, Slots(groups, m, n - 1), multiset(groups[n - 1])[m], n - 1);
    }
  }

  // ----- forwarding a packet one hop -----

  ghost predicate Heads(w: Wire, x: Router, y: Router, p: Packet) {
    w.link(x, y) != [] && w.link(x, y)[0] == p
  }

  ghost function Popped(w: Wire, x: Router, y: Router): Wire
    requires w.link(x, y) != []
  {
    PutLink(w, x, y, w.link(x, y)[1..])
  }

  lemma {:induction false} PopDown(topo: Topo, w: Wire, x: Router, y: Router, p: Packet, u: Router, r: Router, m: Name)
    requires Sound(topo) && Heads(w, x, y, p) && LinkOk(topo, x, y, p)
    requires !IsDown(p, r, m) || topo.dist(u, topo.at(m)) < topo.dist(x, topo.at(m))
    ensures DownFrom(topo, Popped(w, x, y), u, r, m) == DownFrom(topo, w, u, r, m)
    decreases topo.dist(u, topo.at(m))
  {
    if u != topo.at(m) { PopDown(topo, w, x, y, p, topo.hop(u, topo.at(m)), r, m); }
  }

  /** Forwarding an event moves it past one router and leaves its circuit as it was. */
  lemma {:induction false} ForwardDown(topo: Topo, w: Wire, x: Router, y: Router, p: Packet, u: Router, r: Router,
                                       m: Name)
    requires Sound(topo) && Placed(topo, w) && Heads(w, x, y, p) && LinkOk(topo, x, y, p) && p.dest != RouterApp(y)
    requires IsDown(p, r, m) ==> OnWay(topo, u, x, topo.at(m))
    ensures DownFrom(topo, Send(topo, Popped(w, x, y), y, p), u, r, m) == DownFrom(topo, w, u, r, m)
    decreases topo.dist(u, topo.at(m))
  {
    var w1 := Popped(w, x, y);
    var v := Send(topo, w1, y, p);
    var d := topo.at(m);
    assert ServerQueuesOk(topo, w, m);
    assert ServerQueuesOk(topo, w1, m);
    if !IsDown(p, r, m) {
      SendDown(topo, w1, y, p, u, r, m);
      PopDown(topo, w, x, y, p, u, r, m);
    } else {
      SendDownSegment(topo, w1, y, p, u, r, m);
      if u == x {
        SendDown(topo, w1, y, p, y, r, m);
        PopDown(topo, w, x, y, p, y, r, m);
        var q := w.link(x, y);
        assert q == [p] + q[1..];
        assert DownsOf(q, r, m) == [p.body.e] + DownsOf(q[1..], r, m);
        Regroup(DownFrom(topo, w, y, r, m), [p.body.e], DownsOf(q[1..], r, m));
      } else {
        WayCloser(topo, topo.hop(u, d), x, d);
        ForwardDown(topo, w, x, y, p, topo.hop(u, d), r, m);
      }
    }
  }

  lemma {:induction false} PopUp(topo: Topo, w: Wire, x: Router, y: Router, p: Packet, u: Router, r: Router, m: Name)
    requires Sound(topo) && Heads(w, x, y, p) && LinkOk(topo, x, y, p)
    requires !IsUp(p, r, m) || topo.dist(u, r) < topo.dist(x, r)
    ensures UpFrom(topo, Popped(w, x, y), u, r, m) == UpFrom(topo, w, u, r, m)
    decreases topo.dist(u, r)
  {
    if u != r { PopUp(topo, w, x, y, p, topo.hop(u, r), r, m); }
  }

  lemma {:induction false} ForwardUp(topo: Topo, w: Wire, x: Router, y: Router, p: Packet, u: Router, r: Router,
                                     m: Name)
    requires Sound(topo) && Placed(topo, w) && Heads(w, x, y, p) && LinkOk(topo, x, y, p) && p.dest != RouterApp(y)
    requires IsUp(p, r, m) ==> OnWay(topo, u, x, r)
    ensures UpFrom(topo, Send(topo, Popped(w, x, y), y, p), u, r, m) == UpFrom(topo, w, u, r, m)
    decreases topo.dist(u, r)
  {
    var w1 := Popped(w, x, y);
    if !IsUp(p, r, m) {
      SendUp(topo, w1, y, p, u, r, m);
      PopUp(topo, w, x, y, p, u, r, m);
    } else {
      SendUpSegment(topo, w1, y, p, u, r, m);
      if u == x {
        SendUp(topo, w1, y, p, y, r, m);
        PopUp(topo, w, x, y, p, y, r, m);
        var q := w.link(x, y);
        assert q == [p] + q[1..];
        Regroup(UpFrom(topo, w, y, r, m), [p.body.t], UpsOf(q[1..], r, m));
      } else {
        WayCloser(topo, topo.hop(u, r), x, r);
        ForwardUp(topo, w, x, y, p, topo.hop(u, r), r, m);
      }
    }
  }

  /** A reply that has reached its router is the oldest one of its circuit. */
  lemma {:induction false} ArriveUp(topo: Topo, w: Wire, x: Router, y: Router, p: Packet, u: Router, m: Name)
    requires Sound(topo) && Heads(w, x, y, p) && LinkOk(topo, x, y, p) && IsUp(p, y, m)
    requires OnWay(topo, u, x, y)
    ensures UpFrom(topo, w, u, y, m) == [p.body.t] + UpFrom(topo, Popped(w, x, y), u, y, m)
    decreases topo.dist(u, y)
  {
    var q := w.link(x, y);
    assert q == [p] + q[1..];
    if u == x {
      PopUp(topo, w, x, y, p, y, y, m);
    } else {
      WayCloser(topo, topo.hop(u, y), x, y);
      ArriveUp(topo, w, x, y, p, topo.hop(u, y), m);
      Regroup([p.body.t], UpFrom(topo, Popped(w, x, y), topo.hop(u, y), y, m), UpSegment(topo, w, u, y, m));
    }
  }

  // ----- taking from the inbox, registering -----

  lemma {:induction false} InboxDown(topo: Topo, w: Wire, m: Name, u: Router, r: Router, n: Name)
    requires Sound(topo) && w.inbox(m) != []
    ensures DownFrom(topo, w, u, r, n)
         == (if n == m && IsDown(w.inbox(m)[0], r, m) then [w.inbox(m)[0].body.e] else [])
            + DownFrom(topo, PutInbox(w, m, w.inbox(m)[1..]), u, r, n)
    decreases topo.dist(u, topo.at(n))
  {
    var w1 := PutInbox(w, m, w.inbox(m)[1..]);
    var first := if n == m && IsDown(w.inbox(m)[0], r, m) then [w.inbox(m)[0].body.e] else [];
    assert DownEnd(w, r, n) == first + DownEnd(w1, r, n);
    if u != topo.at(n) {
      InboxDown(topo, w, m, topo.hop(u, topo.at(n)), r, n);
      Regroup(first, DownFrom(topo, w1, topo.hop(u, topo.at(n)), r, n), DownSegment(topo, w, u, r, n));
    }
  }

  lemma {:induction false} DownUnchanged(topo: Topo, w: Wire, v: Wire, u: Router, r: Router, n: Name)
    requires Sound(topo) && v.link == w.link && DownEnd(v, r, n) == DownEnd(w, r, n)
    ensures DownFrom(topo, v, u, r, n) == DownFrom(topo, w, u, r, n)
    decreases topo.dist(u, topo.at(n))
  {
    if u != topo.at(n) { DownUnchanged(topo, w, v, topo.hop(u, topo.at(n)), r, n); }
  }

  lemma {:induction false} UpUnchanged(topo: Topo, w: Wire, v: Wire, u: Router, r: Router, n: Name)
    requires Sound(topo) && v.link == w.link
    ensures UpFrom(topo, v, u, r, n) == UpFrom(topo, w, u, r, n)
    decreases topo.dist(u, r)
  {
    if u != r { UpUnchanged(topo, w, v, topo.hop(u, r), r, n); }
  }
}
