/**
  Every step of the network is one step of the circuits or leaves them as they
  are, so what the circuits keep the network keeps.
 */
module Simulation {
  import opened Names
  import opened Circuits
  import opened CircuitInvariant
  import opened CircuitSteps
  import opened CircuitRouter
  import opened CircuitServer
  import opened CircuitReply
  import opened CircuitDeliver
  import opened Network
  import opened Refinement

  /** One step of the circuits finds everything it looks up and, its asserts holding, keeps the invariant. */
  lemma ApplyKeeps(cfg: Cfg, s: Net, step: Step)
    requires Good(cfg) && Inv(cfg, s) && Enabled(cfg, s, step) && Asserted(cfg, s, step)
    ensures Defined(cfg, s, step) && Inv(cfg, Apply(cfg, s, step))
  {
    StepDefined(cfg, s, step);
    match step
    case Use(c, comm, groups, attrs) => UseKeeps(cfg, s, c, comm, groups, attrs);
    case AtRouter(c) => AtRouterKeeps(cfg, s, c);
    case AtServer(r, m, newId, stamps) => AtServerKeeps(cfg, s, r, m, newId, stamps);
    case AtReply(r, m) => AtReplyKeeps(cfg, s, r, m);
    case Deliver(c) => DeliverKeeps(cfg, s, c);
  }

  lemma SameInv(cfg: Cfg, s: Net, t: Net)
    requires Good(cfg) && Inv(cfg, s) && Same(s, t)
    ensures Inv(cfg, t)
  {
    forall c ensures UpOk(cfg, t, c) {
      assert UpOk(cfg, s, c);
      forall k | 0 <= k < |t.side(c).up| ensures UpEventOk(t, c, t.side(c).up[k])
      {
        assert UpEventOk(s, c, s.side(c).up[k]);
      }
      forall comm ensures CommKnown(cfg, t, c, comm) { assert CommKnown(cfg, s, c, comm); }
    }
    forall c ensures SideOk(cfg, t, c) {
      assert SideOk(cfg, s, c);
      forall j | 0 <= j < |t.side(c).down| ensures AnswerOk(cfg, t, c, t.side(c).down[j])
      {
        assert AnswerOk(cfg, s, c, s.side(c).down[j]);
      }
      forall j | 0 <= j < |t.side(c).done| ensures AnswerOk(cfg, t, c, t.side(c).done[j])
      {
        assert AnswerOk(cfg, s, c, s.side(c).done[j]);
      }
    }
    forall c, k: nat ensures ClientBalance(cfg, t, c, k) { assert ClientBalance(cfg, s, c, k); }
    forall r: Router ensures TableOk(cfg, t, r) { assert TableOk(cfg, s, r); }
    forall r: Router, c, comm ensures MembersOk(t, r, c, comm) { assert MembersOk(s, r, c, comm); }
    forall r: Router, i: nat ensures RecordOk(cfg, t, r, i) { assert RecordOk(cfg, s, r, i); }
    forall r: Router, m ensures DownOk(t, r, m) && CircuitOk(cfg, t, r, m) {
      assert DownOk(s, r, m) && CircuitOk(cfg, s, r, m);
      forall k | 0 <= k < |t.fwd(r, m)| ensures QueryOk(t, r, t.fwd(r, m)[k]) { assert QueryOk(s, r, s.fwd(r, m)[k]); }
      forall k | 0 <= k < |t.back(r, m)| ensures TokenOk(cfg, t, r, m, t.back(r, m)[k])
      {
        assert TokenOk(cfg, s, r, m, s.back(r, m)[k]);
      }
    }
    forall m ensures ServerCommsOk(cfg, t, m) && DaemonOk(cfg, t, m) {
      assert ServerCommsOk(cfg, s, m) && DaemonOk(cfg, s, m);
      forall k ensures JobOk(cfg, t, m, k) { assert JobOk(cfg, s, m, k); }
    }
    forall r: Router, i: nat, g: nat, m ensures Balance(t, r, i, g, m) { assert Balance(s, r, i, g, m); }
  }

  /** The circuit step a network step performs, if any. */
  ghost function Performs(topo: Topo, w: Wire, step: WireStep): Option<Step>
    requires WEnabled(topo, w, step)
  {
    match step
    case WUse(c, comm, groups, attrs) => Some(Use(c, comm, groups, attrs))
    case WAtRouter(c) => Some(AtRouter(c))
    case WAtServer(m, newId, stamps) => Some(AtServer(w.inbox(m)[0].src.rtr, m, newId, stamps))
    case WFromServer(m) => ReplyStep(topo.at(m), w.outbox(m)[0])
    case WHop(x, y) => ReplyStep(y, w.link(x, y)[0])
    case WRegister(_) => None
    case WDeliver(c) => Some(Deliver(c))
  }

  ghost function ReplyStep(x: Router, p: Packet): Option<Step> {
    if p.dest == RouterApp(x) && p.src.ServerApp? then Some(AtReply(x, p.src.name)) else None
  }

  ghost predicate Simulates(topo: Topo, w: Wire, step: WireStep)
    requires Sound(topo) && WEnabled(topo, w, step)
  {
    var s := Abstract(topo, w);
    && WDefined(topo, w, step)
    && match Performs(topo, w, step)
       case None => Same(s, Abstract(topo, WApply(topo, w, step)))
       case Some(st) =>
         Enabled(topo.cfg, s, st) && Defined(topo.cfg, s, st)
         && Same(Apply(topo.cfg, s, st), Abstract(topo, WApply(topo, w, step)))
  }

  ghost predicate Sane(topo: Topo, w: Wire) {
    Sound(topo) && Good(topo.cfg) && Placed(topo, w) && Inv(topo.cfg, Abstract(topo, w))
  }

  // ----- steps that use only what both levels share -----

  lemma SimUse(topo: Topo, w: Wire, c: nat, comm: CommId, groups: Groups, attrs: seq<Attr>)
    requires Sane(topo, w) && WEnabled(topo, w, WUse(c, comm, groups, attrs))
    ensures Simulates(topo, w, WUse(c, comm, groups, attrs))
    ensures Placed(topo, WApply(topo, w, WUse(c, comm, groups, attrs)))
  {
    var v := WApply(topo, w, WUse(c, comm, groups, attrs));
    Untouched(topo, w, v);
  }

  /** When no queue between routers and servers changes, neither do the circuits. */
  lemma Untouched(topo: Topo, w: Wire, v: Wire)
    requires Sound(topo) && Placed(topo, w)
    requires v.link == w.link && v.inbox == w.inbox && v.outbox == w.outbox && v.pend == w.pend && v.up == w.up
    ensures Placed(topo, v)
    ensures forall r: Router, m :: FwdOf(topo, v)(r, m) == FwdOf(topo, w)(r, m)
    ensures forall r: Router, m :: BackOf(topo, v)(r, m) == BackOf(topo, w)(r, m)
  {
    forall r: Router, m ensures FwdOf(topo, v)(r, m) == FwdOf(topo, w)(r, m) { DownUnchanged(topo, w, v, r, r, m); }
    forall r: Router, m ensures BackOf(topo, v)(r, m) == BackOf(topo, w)(r, m)
    {
      UpUnchanged(topo, w, v, topo.at(m), r, m);
    }
    forall x: Router, y: Router, k | 0 <= k < |v.link(x, y)| ensures LinkOk(topo, x, y, v.link(x, y)[k]) {
      assert LinkOk(topo, x, y, w.link(x, y)[k]);
    }
    forall m ensures ServerQueuesOk(topo, v, m) { assert ServerQueuesOk(topo, w, m); }
  }

  lemma RouterShared(cfg: Cfg, a: Net, b: Net, c: Client)
    requires a.side == b.side && a.srv == b.srv && a.rtr == b.rtr && a.registry == b.registry
    requires Defined(cfg, a, AtRouter(c))
    ensures Defined(cfg, b, AtRouter(c))
    ensures var x, y := ApplyAtRouter(cfg, a, c), ApplyAtRouter(cfg, b, c);
            && x.registry == y.registry && x.srv == y.srv && x.back == a.back && y.back == b.back
            && (forall d :: x.side(d) == y.side(d)) && (forall r: Router :: x.rtr(r) == y.rtr(r))
  {
  }

  lemma SimRouter(topo: Topo, w: Wire, c: Client)
    requires Sane(topo, w) && WEnabled(topo, w, WAtRouter(c))
    ensures Simulates(topo, w, WAtRouter(c)) && Placed(topo, WApply(topo, w, WAtRouter(c)))
  {
    var cfg := topo.cfg;
    var s := Abstract(topo, w);
    var n := Core(w, NoDown(), NoUp());
    StepDefined(cfg, s, AtRouter(c));
    RouterShared(cfg, s, n, c);
    var t := ApplyAtRouter(cfg, s, c);
    var w1 := Absorb(w, ApplyAtRouter(cfg, n, c));
    var r := cfg.home(c);
    var ps := Fanout(topo, w, c);
    Untouched(topo, w, w1);
    FanoutOk(topo, w, c);
    SendAllEffect(topo, w1, r, ps);
    var v := SendAll(topo, w1, r, ps);
    forall q: Router, m ensures t.fwd(q, m) == FwdOf(topo, v)(q, m) {
      FanoutDowns(topo, w, c, q, m);
      assert FwdOf(topo, w1)(q, m) == FwdOf(topo, w)(q, m);
    }
    forall q: Router, m ensures t.back(q, m) == BackOf(topo, v)(q, m) {
      assert BackOf(topo, w1)(q, m) == BackOf(topo, w)(q, m);
    }
  }

  lemma FanoutOk(topo: Topo, w: Wire, c: Client)
    requires Defined(topo.cfg, Core(w, NoDown(), NoUp()), AtRouter(c))
    ensures FromRouter(topo, topo.cfg.home(c), Fanout(topo, w, c))
  {
    var r := topo.cfg.home(c);
    match w.side(c).up[0]
    case Create(comm, groups) => OpensFromRouter(topo, r, comm, groups, |groups|);
    case Ask(comm, id, attrs) =>
      QueriesFromRouter(topo, r, comm, w.rtr(r).next, attrs, w.rtr(r).comms[(c, comm)], |w.rtr(r).comms[(c, comm)]|);
  }

  /** The packets of a fan-out for one member are what the circuit step appends for it. */
  lemma FanoutDowns(topo: Topo, w: Wire, c: Client, q: Router, m: Name)
    requires Defined(topo.cfg, Core(w, NoDown(), NoUp()), AtRouter(c))
    ensures var r := topo.cfg.home(c);
            DownsOf(Fanout(topo, w, c), q, m)
            == if q != r then []
               else match w.side(c).up[0]
                    case Create(comm, groups) => Opens(comm, groups, m)
                    case Ask(comm, id, attrs) => Queries(comm, w.rtr(r).next, attrs, w.rtr(r).comms[(c, comm)], m)
  {
    var r := topo.cfg.home(c);
    match w.side(c).up[0]
    case Create(comm, groups) => OpenDowns(topo, r, comm, groups, |groups|, q, m);
    case Ask(comm, id, attrs) =>
      QueryDowns(topo, r, comm, w.rtr(r).next, attrs, w.rtr(r).comms[(c, comm)], |w.rtr(r).comms[(c, comm)]|, q, m);
  }

  // ----- a packet reaches a router -----

  lemma ReplyShared(cfg: Cfg, a: Net, b: Net, r: Router, m: Name)
    requires a.side == b.side && a.srv == b.srv && a.rtr == b.rtr && a.registry == b.registry
    requires a.back(r, m) != [] && b.back(r, m) != [] && a.back(r, m)[0] == b.back(r, m)[0]
    requires Defined(cfg, a, AtReply(r, m))
    ensures Defined(cfg, b, AtReply(r, m))
    ensures var x, y := ApplyAtReply(cfg, a, r, m), ApplyAtReply(cfg, b, r, m);
            && x.registry == y.registry && x.srv == y.srv && x.fwd == a.fwd
            && (forall d :: x.side(d) == y.side(d)) && (forall q: Router :: x.rtr(q) == y.rtr(q))
  {
  }

  /** Router x processes a reply of its own that was taken from the queue w1 is without. */
  lemma SimReply(topo: Topo, w: Wire, w1: Wire, x: Router, p: Packet)
    requires Sane(topo, w) && PacketOk(topo, p) && p.dest == RouterApp(x)
    requires w1.side == w.side && w1.srv == w.srv && w1.rtr == w.rtr && w1.registry == w.registry
    requires Placed(topo, w1)
    requires forall r: Router, m :: FwdOf(topo, w1)(r, m) == FwdOf(topo, w)(r, m)
    requires p.src.ServerApp? ==> BackOf(topo, w)(x, p.src.name) == [p.body.t] + BackOf(topo, w1)(x, p.src.name)
    requires forall r: Router, m :: r != x || m != p.src.name ==> BackOf(topo, w1)(r, m) == BackOf(topo, w)(r, m)
    ensures ArriveDefined(topo, w1, x, p) && Placed(topo, Arrive(topo, w1, x, p))
    ensures var s := Abstract(topo, w);
            s.back(x, p.src.name) != [] && Defined(topo.cfg, s, AtReply(x, p.src.name))
            && Same(ApplyAtReply(topo.cfg, s, x, p.src.name), Abstract(topo, Arrive(topo, w1, x, p)))
  {
    var s := Abstract(topo, w);
    var m := p.src.name;
    StepDefined(topo.cfg, s, AtReply(x, m));
    var n := Core(w1, NoDown(), OneUp(x, m, p.body.t));
    ReplyShared(topo.cfg, s, n, x, m);
    Untouched(topo, w1, Arrive(topo, w1, x, p));
  }

  lemma PopPlaced(topo: Topo, w: Wire, x: Router, y: Router)
    requires Sound(topo) && Placed(topo, w) && w.link(x, y) != []
    ensures Placed(topo, Popped(w, x, y))
  {
    var v := Popped(w, x, y);
    forall a: Router, b: Router, k | 0 <= k < |v.link(a, b)| ensures LinkOk(topo, a, b, v.link(a, b)[k]) {
      var j := if a == x && b == y then k + 1 else k;
      assert v.link(a, b)[k] == w.link(a, b)[j] && LinkOk(topo, a, b, w.link(a, b)[j]);
    }
    forall m ensures ServerQueuesOk(topo, v, m) { assert ServerQueuesOk(topo, w, m); }
  }

  lemma SimHop(topo: Topo, w: Wire, x: Router, y: Router)
    requires Sane(topo, w) && WEnabled(topo, w, WHop(x, y))
    ensures Simulates(topo, w, WHop(x, y)) && Placed(topo, WApply(topo, w, WHop(x, y)))
  {
    var p := w.link(x, y)[0];
    if p.dest == RouterApp(y) {
      HopHome(topo, w, x, y);
    } else {
      HopOn(topo, w, x, y);
    }
  }

  /** The packet is a reply to router y. */
  lemma HopHome(topo: Topo, w: Wire, x: Router, y: Router)
    requires Sane(topo, w) && WEnabled(topo, w, WHop(x, y)) && w.link(x, y)[0].dest == RouterApp(y)
    ensures Simulates(topo, w, WHop(x, y)) && Placed(topo, WApply(topo, w, WHop(x, y)))
  {
    var p := w.link(x, y)[0];
    assert LinkOk(topo, x, y, p);
    var w1 := Popped(w, x, y);
    PopPlaced(topo, w, x, y);
    var m := p.src.name;
    forall r: Router, n ensures FwdOf(topo, w1)(r, n) == FwdOf(topo, w)(r, n) { PopDown(topo, w, x, y, p, r, r, n); }
    forall r: Router, n | r != y || n != m ensures BackOf(topo, w1)(r, n) == BackOf(topo, w)(r, n) {
      PopUp(topo, w, x, y, p, topo.at(n), r, n);
    }
    ArriveUp(topo, w, x, y, p, topo.at(m), m);
    Regroup([p.body.t], UpFrom(topo, w1, topo.at(m), y, m), UpsOf(w.outbox(m), y, m));
    SimReply(topo, w, w1, y, p);
  }

  /** Router y sends the packet on. */
  lemma HopOn(topo: Topo, w: Wire, x: Router, y: Router)
    requires Sane(topo, w) && WEnabled(topo, w, WHop(x, y)) && w.link(x, y)[0].dest != RouterApp(y)
    ensures Simulates(topo, w, WHop(x, y)) && Placed(topo, WApply(topo, w, WHop(x, y)))
  {
    var p := w.link(x, y)[0];
    assert LinkOk(topo, x, y, p);
    var w1 := Popped(w, x, y);
    PopPlaced(topo, w, x, y);
    var v := Send(topo, w1, y, p);
    WayOn(topo, p.src.rtr, x, p.dest.rtr);
    forall r: Router, n ensures FwdOf(topo, v)(r, n) == FwdOf(topo, w)(r, n)
    {
      ForwardDown(topo, w, x, y, p, r, r, n);
    }
    forall r: Router, n ensures BackOf(topo, v)(r, n) == BackOf(topo, w)(r, n)
    {
      ForwardUp(topo, w, x, y, p, topo.at(n), r, n);
    }
    WayFrom(topo, p.src.rtr, x, p.dest.rtr);
    SendPlaced(topo, w1, y, p);
  }

  /** The next router on the way is on the way too. */
  lemma WayFrom(topo: Topo, a: Router, x: Router, d: Router)
    requires Sound(topo) && OnWay(topo, a, x, d) && x != d
    ensures OnWay(topo, a, topo.hop(x, d), d)
  {
    WayOn(topo, a, x, d);
  }

  ghost function Left(w: Wire, m: Name): Wire
    requires w.outbox(m) != []
  {
    PutOutbox(w, m, w.outbox(m)[1..])
  }

  lemma LeftPlaced(topo: Topo, w: Wire, m: Name)
    requires Sound(topo) && Placed(topo, w) && w.outbox(m) != []
    ensures Placed(topo, Left(w, m))
  {
    var w1 := Left(w, m);
    forall a: Router, b: Router, k | 0 <= k < |w1.link(a, b)| ensures LinkOk(topo, a, b, w1.link(a, b)[k]) {
      assert LinkOk(topo, a, b, w.link(a, b)[k]);
    }
    forall n ensures ServerQueuesOk(topo, w1, n) {
      assert ServerQueuesOk(topo, w, n);
      if n == m { assert forall k :: 0 <= k < |w1.outbox(m)| ==> w1.outbox(m)[k] == w.outbox(m)[k + 1]; }
    }
  }

  lemma LeftBack(topo: Topo, w: Wire, m: Name, r: Router, n: Name)
    requires Sound(topo) && w.outbox(m) != []
    ensures BackOf(topo, w)(r, n)
         == UpFrom(topo, w, topo.at(n), r, n)
            + ((if n == m && IsUp(w.outbox(m)[0], r, m) then [w.outbox(m)[0].body.t] else []) + UpsOf(Left(w,
                m).outbox(n), r, n))
    ensures BackOf(topo, Left(w, m))(r, n) == UpFrom(topo, w, topo.at(n), r, n) + UpsOf(Left(w, m).outbox(n), r, n)
  {
    UpUnchanged(topo, w, Left(w, m), topo.at(n), r, n);
  }

  lemma SimFromServer(topo: Topo, w: Wire, m: Name)
    requires Sane(topo, w) && WEnabled(topo, w, WFromServer(m))
    ensures Simulates(topo, w, WFromServer(m)) && Placed(topo, WApply(topo, w, WFromServer(m)))
  {
    assert ServerQueuesOk(topo, w, m);
    var p := w.outbox(m)[0];
    var x := topo.at(m);
    var w1 := Left(w, m);
    LeftPlaced(topo, w, m);
    forall r: Router, n ensures FwdOf(topo, w1)(r, n) == FwdOf(topo, w)(r, n) { DownUnchanged(topo, w, w1, r, r, n); }
    if p.dest == RouterApp(x) {
      forall r: Router, n | r != x || n != m ensures BackOf(topo, w1)(r, n) == BackOf(topo, w)(r, n)
      {
        LeftBack(topo, w, m, r, n);
      }
      LeftBack(topo, w, m, x, m);
      SimReply(topo, w, w1, x, p);
    } else {
      ForwardLeft(topo, w, m);
    }
  }

  /** A router that passes a server's reply on leaves every circuit as it was. */
  lemma ForwardLeft(topo: Topo, w: Wire, m: Name)
    requires Sound(topo) && Placed(topo, w) && w.outbox(m) != [] && w.outbox(m)[0].dest != RouterApp(topo.at(m))
    requires Placed(topo, Left(w, m))
    ensures var v := Send(topo, Left(w, m), topo.at(m), w.outbox(m)[0]);
            && Placed(topo, v)
            && (forall r: Router, n :: FwdOf(topo, v)(r, n) == FwdOf(topo, w)(r, n))
            && (forall r: Router, n :: BackOf(topo, v)(r, n) == BackOf(topo, w)(r, n))
  {
    var w1 := Left(w, m);
    var p := w.outbox(m)[0];
    var x := topo.at(m);
    assert ServerQueuesOk(topo, w, m);
    var v := Send(topo, w1, x, p);
    forall r: Router, n ensures FwdOf(topo, v)(r, n) == FwdOf(topo, w)(r, n) {
      assert ServerQueuesOk(topo, w1, n);
      SendDown(topo, w1, x, p, r, r, n);
      DownUnchanged(topo, w, w1, r, r, n);
    }
    forall r: Router, n ensures BackOf(topo, v)(r, n) == BackOf(topo, w)(r, n) {
      LeftBack(topo, w, m, r, n);
      UpUnchanged(topo, w, w1, topo.at(n), r, n);
      var add := if n == m && IsUp(p, r, m) then [p.body.t] else [];
      assert !IsUp(p, r, n) || n == m;
      SendUp(topo, w1, x, p, topo.at(n), r, n);
      Regroup(UpFrom(topo, w, topo.at(n), r, n), add, UpsOf(w1.outbox(n), r, n));
    }
    SendPlaced(topo, w1, x, p);
  }

  // ----- a server takes an event, registers; a context takes an answer -----

  lemma ServerShared(cfg: Cfg, a: Net, b: Net, r: Router, m: Name, newId: CommId, stamps: seq<nat>)
    requires a.side == b.side && a.srv == b.srv && a.rtr == b.rtr && a.registry == b.registry
    requires a.fwd(r, m) != [] && b.fwd(r, m) != [] && a.fwd(r, m)[0] == b.fwd(r, m)[0]
    requires b.back(r, m) == [] && Defined(cfg, a, AtServer(r, m, newId, stamps))
    ensures Defined(cfg, b, AtServer(r, m, newId, stamps))
    ensures var x, y := ApplyAtServer(cfg, a, r, m, newId, stamps), ApplyAtServer(cfg, b, r, m, newId, stamps);
            && x.registry == y.registry && (forall d :: x.side(d) == y.side(d))
            && (forall n :: x.srv(n) == y.srv(n)) && (forall q: Router :: x.rtr(q) == y.rtr(q))
            && (forall q: Router, n :: x.fwd(q, n) == if q == r && n == m then a.fwd(r, m)[1..] else a.fwd(q, n))
            && (forall q: Router, n ::
                  x.back(q, n) == if q == r && n == m then a.back(r, m) + y.back(r, m) else a.back(q, n))
  {
  }

  lemma {:induction false} RepliesUps(topo: Topo, r: Router, m: Name, ts: seq<Token>, q: Router, n: Name)
    ensures UpsOf(Replies(topo, r, m, ts), q, n) == if q == r && n == m then ts else []
  {
    var ps := Replies(topo, r, m, ts);
    if ts != [] {
      RepliesUps(topo, r, m, ts[1..], q, n);
      assert ps[1..] == Replies(topo, r, m, ts[1..]);
      assert ts == [ts[0]] + ts[1..];
    }
  }

  /** Appending replies of server m for router r to its outbox extends exactly that circuit. */
  lemma OutboxAppend(topo: Topo, w: Wire, v: Wire, r: Router, m: Name, ts: seq<Token>)
    requires Sound(topo) && v.link == w.link
    requires v.outbox(m) == w.outbox(m) + Replies(topo, r, m, ts)
    requires forall n :: n != m ==> v.outbox(n) == w.outbox(n)
    ensures forall q: Router, n ::
        BackOf(topo, v)(q, n) == if q == r && n == m then BackOf(topo, w)(q, n) + ts else BackOf(topo, w)(q, n)
  {
    forall q: Router, n ensures BackOf(topo, v)(q, n) == if q == r
        && n == m then BackOf(topo, w)(q, n) + ts else BackOf(topo, w)(q, n) {
      UpUnchanged(topo, w, v, topo.at(n), q, n);
      if n == m {
        UpsAppend(w.outbox(m), Replies(topo, r, m, ts), q, m);
        RepliesUps(topo, r, m, ts, q, m);
        Regroup(UpFrom(topo, w, topo.at(m), q, m), UpsOf(w.outbox(m), q, m), if q == r then ts else []);
      }
    }
  }

  /** Appending well-addressed replies to an outbox keeps every packet where it may be. */
  lemma OutboxPlaced(topo: Topo, w: Wire, v: Wire, r: Router, m: Name, ts: seq<Token>)
    requires Sound(topo) && Placed(topo, w)
    requires v.link == w.link && v.inbox == w.inbox && v.pend == w.pend && v.up == w.up
    requires v.outbox(m) == w.outbox(m) + Replies(topo, r, m, ts)
    requires forall n :: n != m ==> v.outbox(n) == w.outbox(n)
    ensures Placed(topo, v)
  {
    forall a: Router, c: Router, k | 0 <= k < |v.link(a, c)| ensures LinkOk(topo, a, c, v.link(a, c)[k]) {
      assert LinkOk(topo, a, c, w.link(a, c)[k]);
    }
    forall n ensures ServerQueuesOk(topo, v, n) { assert ServerQueuesOk(topo, w, n); }
  }

  ghost function Taken(w: Wire, m: Name): Wire
    requires w.inbox(m) != []
  {
    PutInbox(w, m, w.inbox(m)[1..])
  }

  lemma TakenPlaced(topo: Topo, w: Wire, m: Name)
    requires Sound(topo) && Placed(topo, w) && w.inbox(m) != []
    ensures Placed(topo, Taken(w, m))
  {
    var v := Taken(w, m);
    forall a: Router, c: Router, k | 0 <= k < |v.link(a, c)| ensures LinkOk(topo, a, c, v.link(a, c)[k]) {
      assert LinkOk(topo, a, c, w.link(a, c)[k]);
    }
    forall n ensures ServerQueuesOk(topo, v, n) {
      assert ServerQueuesOk(topo, w, n);
      if n == m { assert forall k :: 0 <= k < |v.inbox(m)| ==> v.inbox(m)[k] == w.inbox(m)[k + 1]; }
    }
  }

  /** Taking from an inbox takes the first event of one circuit. */
  lemma InboxFwd(topo: Topo, w: Wire, v: Wire, m: Name)
    requires Sane(topo, w) && w.inbox(m) != [] && v.link == w.link
    requires v.pend == w.pend && forall n :: v.inbox(n) == Taken(w, m).inbox(n)
    ensures var r := w.inbox(m)[0].src.rtr;
            forall q: Router, n :: FwdOf(topo, v)(q, n)
              == if q == r && n == m then (if FwdOf(topo, w)(r, m) == [] then [] else FwdOf(topo, w)(r, m)[1..])
                 else FwdOf(topo, w)(q, n)
  {
    assert ServerQueuesOk(topo, w, m);
    forall q: Router, n ensures FwdOf(topo, v)(q, n)
      == if q == w.inbox(m)[0].src.rtr && n == m then (if FwdOf(topo, w)(q, n) == [] then []
          else FwdOf(topo, w)(q, n)[1..])
         else FwdOf(topo, w)(q, n)
    {
      InboxDown(topo, w, m, q, q, n);
      DownUnchanged(topo, Taken(w, m), v, q, q, n);
    }
  }

  lemma SimServer(topo: Topo, w: Wire, m: Name, newId: CommId, stamps: seq<nat>)
    requires Sane(topo, w) && WEnabled(topo, w, WAtServer(m, newId, stamps))
    requires WAsserted(topo, w, WAtServer(m, newId, stamps))
    ensures Simulates(topo, w, WAtServer(m, newId, stamps))
        && Placed(topo, WApply(topo, w, WAtServer(m, newId, stamps)))
  {
    var p := w.inbox(m)[0];
    TakesHead(topo, w, m, newId, stamps);
    var b := Core(w, OneDown(p.src.rtr, m, p.body.e), NoUp());
    ServerShared(topo.cfg, Abstract(topo, w), b, p.src.rtr, m, newId, stamps);
    ServerQueues(topo, w, m, newId, stamps);
  }

  /** What the step does to the queues: the circuit of the event loses it, and gets the reply if there is one. */
  lemma ServerQueues(topo: Topo, w: Wire, m: Name, newId: CommId, stamps: seq<nat>)
    requires Sane(topo, w) && WEnabled(topo, w, WAtServer(m, newId, stamps))
    requires WDefined(topo, w, WAtServer(m, newId, stamps)) && PacketOk(topo, w.inbox(m)[0])
    ensures var v, p := WApply(topo, w, WAtServer(m, newId, stamps)), w.inbox(m)[0];
            var r := p.src.rtr;
            var b := Core(w, OneDown(r, m, p.body.e), NoUp());
            && Placed(topo, v)
            && (forall q: Router, n :: FwdOf(topo, v)(q, n)
                  == if q == r && n == m then (if FwdOf(topo, w)(r, m) == [] then [] else FwdOf(topo, w)(r, m)[1..])
                     else FwdOf(topo, w)(q, n))
            && (forall q: Router, n :: BackOf(topo, v)(q, n)
                  == if q == r && n == m
                     then BackOf(topo, w)(q, n) + ApplyAtServer(topo.cfg, b, r, m, newId, stamps).back(r, m)
                     else BackOf(topo, w)(q, n))
  {
    var p, r := w.inbox(m)[0], w.inbox(m)[0].src.rtr;
    var b := Core(w, OneDown(r, m, p.body.e), NoUp());
    var v := WApply(topo, w, WAtServer(m, newId, stamps));
    var ts := ApplyAtServer(topo.cfg, b, r, m, newId, stamps).back(r, m);
    TakenPlaced(topo, w, m);
    InboxFwd(topo, w, v, m);
    OutboxAppend(topo, w, v, r, m, ts);
    OutboxPlaced(topo, Taken(w, m), v, r, m, ts);
  }

  /** The event at the head of the inbox is the next one on the circuit of the router that sent it. */
  lemma TakesHead(topo: Topo, w: Wire, m: Name, newId: CommId, stamps: seq<nat>)
    requires Sane(topo, w) && WEnabled(topo, w, WAtServer(m, newId, stamps))
    requires WAsserted(topo, w, WAtServer(m, newId, stamps))
    ensures var s, p := Abstract(topo, w), w.inbox(m)[0];
            && PacketOk(topo, p) && IsDown(p, p.src.rtr, m)
            && s.fwd(p.src.rtr, m) != [] && s.fwd(p.src.rtr, m)[0] == p.body.e
            && Enabled(topo.cfg, s, AtServer(p.src.rtr, m, newId, stamps))
            && Defined(topo.cfg, s, AtServer(p.src.rtr, m, newId, stamps))
  {
    var s := Abstract(topo, w);
    assert ServerQueuesOk(topo, w, m);
    var p := w.inbox(m)[0];
    var r := p.src.rtr;
    assert p.body.Down? && IsDown(p, r, m);
    InboxDown(topo, w, m, r, r, m);
    StepDefined(topo.cfg, s, AtServer(r, m, newId, stamps));
  }

  lemma SimRegister(topo: Topo, w: Wire, m: Name)
    requires Sane(topo, w) && WEnabled(topo, w, WRegister(m)) && WAsserted(topo, w, WRegister(m))
    ensures Simulates(topo, w, WRegister(m)) && Placed(topo, WApply(topo, w, WRegister(m)))
  {
    var v := WApply(topo, w, WRegister(m));
    forall q: Router, n ensures FwdOf(topo, v)(q, n) == FwdOf(topo, w)(q, n) {
      DownsAppend(w.inbox(n), w.pend(n), q, n);
      DownUnchanged(topo, w, v, q, q, n);
    }
    forall q: Router, n ensures BackOf(topo, v)(q, n) == BackOf(topo, w)(q, n)
    {
      UpUnchanged(topo, w, v, topo.at(n), q, n);
    }
    forall a: Router, c: Router, k | 0 <= k < |v.link(a, c)| ensures LinkOk(topo, a, c, v.link(a, c)[k]) {
      assert LinkOk(topo, a, c, w.link(a, c)[k]);
    }
    forall n ensures ServerQueuesOk(topo, v, n) { assert ServerQueuesOk(topo, w, n); }
  }

  lemma DeliverShared(cfg: Cfg, a: Net, b: Net, c: Client)
    requires a.side == b.side && a.srv == b.srv && a.rtr == b.rtr && a.registry == b.registry
    requires Defined(cfg, a, Deliver(c)) && (forall q: Router, n :: b.back(q, n) == [])
    ensures Defined(cfg, b, Deliver(c))
    ensures var x, y := ApplyDeliver(cfg, a, c), ApplyDeliver(cfg, b, c);
            && x.registry == y.registry && (forall d :: x.side(d) == y.side(d))
            && (forall n :: x.srv(n) == y.srv(n)) && (forall q: Router :: x.rtr(q) == y.rtr(q)) && x.fwd == a.fwd
            && (c.External? ==> x.back == a.back)
            && (c.Daemon? ==>
                  var r := a.srv(c.name).fini[a.side(c).down[0].id].rtr;
                  forall q: Router, n :: x.back(q, n) == if q == r && n == c.name then a.back(q, n) + y.back(r,
                      c.name) else a.back(q, n))
  {
  }

  lemma SimDeliver(topo: Topo, w: Wire, c: Client)
    requires Sane(topo, w) && WEnabled(topo, w, WDeliver(c))
    ensures Simulates(topo, w, WDeliver(c)) && Placed(topo, WApply(topo, w, WDeliver(c)))
  {
    var cfg := topo.cfg;
    var s := Abstract(topo, w);
    StepDefined(cfg, s, Deliver(c));
    var b := Core(w, NoDown(), NoUp());
    DeliverShared(cfg, s, b, c);
    var y := ApplyDeliver(cfg, b, c);
    var v := WApply(topo, w, WDeliver(c));
    forall q: Router, n ensures FwdOf(topo, v)(q, n) == FwdOf(topo, w)(q, n) { DownUnchanged(topo, w, v, q, q, n); }
    if c.External? {
      Untouched(topo, w, v);
    } else {
      var r := w.srv(c.name).fini[w.side(c).down[0].id].rtr;
      OutboxAppend(topo, w, v, r, c.name, y.back(r, c.name));
      OutboxPlaced(topo, w, v, r, c.name, y.back(r, c.name));
    }
  }

  /** The refinement: a network step is one circuit step or none. */
  lemma StepSimulates(topo: Topo, w: Wire, step: WireStep)
    requires Sane(topo, w) && WEnabled(topo, w, step) && WAsserted(topo, w, step)
    ensures Simulates(topo, w, step)
    ensures WDefined(topo, w, step) && Sane(topo, WApply(topo, w, step))
  {
    match step {
      case WUse(c, comm, groups, attrs) => SimUse(topo, w, c, comm, groups, attrs);
      case WAtRouter(c) => SimRouter(topo, w, c);
      case WAtServer(m, newId, stamps) => SimServer(topo, w, m, newId, stamps);
      case WFromServer(m) => SimFromServer(topo, w, m);
      case WHop(x, y) => SimHop(topo, w, x, y);
      case WRegister(m) => SimRegister(topo, w, m);
      case WDeliver(c) => SimDeliver(topo, w, c);
    }
    var s := Abstract(topo, w);
    var after := Abstract(topo, WApply(topo, w, step));
    match Performs(topo, w, step)
    case None => SameInv(topo.cfg, s, after);
    case Some(st) =>
      ApplyKeeps(topo.cfg, s, st);
      SameInv(topo.cfg, Apply(topo.cfg, s, st), after);
  }
}
