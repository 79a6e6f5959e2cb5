/**
  What a router does with an event of a client and with a reply of a server:
  the communicators it knows, its outstanding requests, and the fan-out loops.
  Each method takes the step of the network model it is named after.
 */
module RouterEvents {
  import opened Names
  import opened Gather
  import opened Circuits
  import opened Network
  import opened AppIds
  import opened Routers

  /** An outstanding CommReqInfo with what its request was. */
  class Outstanding {
    const src: Client
    const respId: nat
    const comm: CommId
    const attrs: seq<Attr>
    const groups: Groups
    const info: CommReqInfo
    ghost var from: seq<seq<Name>>

    constructor (src: Client, respId: nat, comm: CommId, attrs: seq<Attr>, groups: Groups, info: CommReqInfo)
      ensures this.src == src && this.respId == respId && this.comm == comm && this.attrs == attrs
      ensures this.groups == groups && this.info == info && from == EmptyRows(|groups|)
    {
      this.src, this.respId, this.comm, this.attrs, this.groups, this.info := src, respId, comm, attrs, groups, info;
      from := EmptyRows(|groups|);
    }

    ghost function State(): Record
      reads this, info
    {
      Record(src, respId, comm, attrs, groups, info.State(), from)
    }

    /** What leaves for the client when the record is complete. */
    method Answered() returns (answer: Option<(Client, Answer)>)
      ensures answer == Some((State().src, Answer(State().respId, State().info.resp)))
    {
      answer := Some((src, Answer(respId, Response(info.rows, info.stamps, info.errs))));
    }
  }

  /** The requests a router works on. */
  class Requests {
    /** m_commMap of every client. */
    var comms: map<(Client, CommId), Groups>
    /** The records, by the id their requests carry to the servers. */
    var infos: map<nat, Outstanding>
    var next: nat
    /** What the records hold, and the objects they are made of. */
    ghost var table: map<nat, Record>
    ghost var repr: set<object>

    constructor ()
      ensures Valid() && State() == RtrState(map[], map[], 0) && repr == {}
    {
      comms, infos, next, table, repr := map[], map[], 0, map[], {};
    }

    /** Every record is a separate object and older than the next id. */
    ghost predicate Separate()
      reads this
    {
      && this !in repr && table.Keys == infos.Keys
      && (forall i :: i in infos ==> i < next && infos[i] in repr && infos[i].info in repr)
      && (forall i, j :: i in infos && j in infos && i != j ==> infos[i] != infos[j] && infos[i].info != infos[j].info)
    }

    ghost predicate Synced(i: nat)
      reads this, repr
      requires Separate() && i in infos
    {
      infos[i].State() == table[i]
    }

    ghost predicate Valid()
      reads this, repr
    {
      Separate() && forall i :: i in infos ==> Synced(i)
    }

    ghost function State(): RtrState
      reads this
    {
      RtrState(comms, table, next)
    }

    /** Client::addComm. */
    method AddComm(c: Client, comm: CommId, groups: Groups)
      requires Valid() && (c, comm) !in comms
      modifies this`comms
      ensures Valid() && State() == old(State()).(comms := old(State()).comms[(c, comm) := groups])
    {
      comms := comms[(c, comm) := groups];
    }

    /** Client::getCommList. */
    method GetCommList(c: Client, comm: CommId) returns (groups: Groups)
      requires (c, comm) in comms
      ensures groups == comms[(c, comm)]
    {
      groups := comms[(c, comm)];
    }

    method GroupSizes(groups: Groups) returns (grpInfo: seq<nat>)
      ensures grpInfo == Sizes(groups)
    {
      grpInfo := [];
      for i := 0 to |groups|
        invariant |grpInfo| == i && forall g :: 0 <= g < i ==> grpInfo[g] == |groups[g]|
      {
        grpInfo := grpInfo + [|groups[i]|];
      }
    }

    method NewOutstanding(c: Client, id: nat, comm: CommId, attrs: seq<Attr>, groups: Groups) returns (rec: Outstanding)
      ensures fresh(rec) && fresh(rec.info) && rec.State() == NewRecord(c, id, comm, attrs, groups)
    {
      var grpInfo := GroupSizes(groups);
      var info := new CommReqInfo(Get, |attrs|, grpInfo);
      rec := new Outstanding(c, id, comm, attrs, groups, info);
    }

    /** The first half of RtrCommReqEvent::process: the record, and the id the request is sent on with. */
    method Start(c: Client, id: nat, comm: CommId, attrs: seq<Attr>) returns (key: nat, groups: Groups)
      requires Valid() && (c, comm) in comms
      modifies this`infos, this`next, this`table, this`repr
      ensures Valid() && fresh(repr - old(repr)) && key == old(next) && groups == comms[(c, comm)]
      ensures State() == old(State()).(infos := old(State()).infos[key := NewRecord(c, id, comm, attrs, groups)],
          next := key + 1)
    {
      groups := GetCommList(c, comm);
      var rec := NewOutstanding(c, id, comm, attrs, groups);
      key := next;
      Insert(rec);
    }

    method Insert(rec: Outstanding)
      requires Valid() && rec !in repr && rec.info !in repr
      requires this != rec as object && this != rec.info as object
      modifies this`infos, this`next, this`table, this`repr
      ensures Valid() && repr == old(repr) + {rec, rec.info}
      ensures table == old(table)[old(next) := rec.State()] && next == old(next) + 1
    {
      infos, table, repr := infos[next := rec], table[next := rec.State()], repr + {rec, rec.info};
      next := next + 1;
    }

    /** RtrCommRespEvent::process; an answer when this was the last reply. */
    method Reply(t: Token) returns (answer: Option<(Client, Answer)>)
      requires Valid() && t.id in table && Receivable(table[t.id], t)
      modifies this`infos, this`table, repr
      ensures Valid() && repr == old(repr)
      ensures var rec := Received(old(table)[t.id], t);
              && answer == (if rec.info.pending == 0 then Some((rec.src, Answer(rec.respId, rec.info.resp))) else None)
              && State() == old(State()).(infos := if rec.info.pending == 0 then old(table) - {t.id}
                    else old(table)[t.id := rec])
    {
      var done := Gathered(infos[t.id], t);
      if done {
        answer := Finish(t.id);
      } else {
        answer := None;
        Update(t.id);
      }
    }

    /** Everything but record k is as the table says. */
    ghost predicate ValidBut(k: nat)
      reads this, repr
    {
      Separate() && k in infos && forall i :: i in infos && i != k ==> Synced(i)
    }

    /** The answer leaves and the record is deleted. */
    method Finish(k: nat) returns (answer: Option<(Client, Answer)>)
      requires ValidBut(k)
      modifies this`infos, this`table
      ensures Valid() && table == old(table) - {k}
      ensures var rec := old(infos[k].State()); answer == Some((rec.src, Answer(rec.respId, rec.info.resp)))
    {
      hide Outstanding.State;
      answer := infos[k].Answered();
      infos, table := infos - {k}, table - {k};
    }

    ghost method Update(k: nat)
      requires ValidBut(k)
      modifies this`table
      ensures Valid() && table == old(table)[k := infos[k].State()]
    {
      hide Outstanding.State;
      table := table[k := infos[k].State()];
    }
  }

  /** The record still waits for a reply of the group, and the reply is as wide as the request. */
  ghost predicate Receivable(rec: Record, t: Token) {
    && t.grp < |rec.groups| == |rec.from| == |rec.info.sizes| && Gather.Valid(rec.info)
    && |rec.info.respQ[t.grp]| < rec.info.sizes[t.grp] && ReplyFits(rec.info, t.reply)
  }

  method Gathered(out: Outstanding, t: Token) returns (done: bool)
    requires Receivable(out.State(), t)
    modifies out, out.info
    ensures out.State() == Received(old(out.State()), t)
    ensures done <==> out.State().info.pending == 0
  {
    done := out.info.OnReply(t.grp, t.reply);
    out.from := out.from[t.grp := out.from[t.grp] + [t.from]];
  }

  // ----- the fan-out loops -----

  /** All members have a place in the route table. */
  ghost predicate Listed(v: View, groups: Groups) {
    forall g, j :: 0 <= g < |groups| && 0 <= j < |groups[g]| ==> groups[g][j] in v.table
  }

  /** What SendTo sends for a name is the packet of the network model for that member. */
  lemma SeenMember(v: View, pl: Place, topo: Topo, name: Name, e: DownEvent)
    requires TableOk(v.rtrId, v.table, pl, topo) && name in v.table
    ensures Seen(v.table, Msg(AppId(v.rtrId, NOBODY), v.table[name], Down(e))) == ToMember(topo, v.rtrId, name, e)
    ensures v.table[name] != AppId(0, NOBODY)
    ensures Known(v, v.table[name]) && RtrId(v.table[name]) in pl.routers
  {
    Unpack(v.rtrId, NOBODY);
    Unpack(0, NOBODY);
  }

  lemma SendAllMore(topo: Topo, w: Wire, r: Router, before: seq<Packet>, ps: seq<Packet>, j: nat)
    requires j < |ps|
    ensures SendAll(topo, w, r, before + ps[..j + 1]) == Send(topo, SendAll(topo, w, r, before + ps[..j]), r, ps[j])
  {
    var all := before + ps[..j + 1];
    assert all[..|all| - 1] == before + ps[..j];
  }

  /** The inner loop: one event to every member of a group. */
  method SendGroup(router: RouterNode, members: seq<Name>, e: Name -> DownEvent,
                   ghost pl: Place, ghost topo: Topo, ghost w: Wire, ghost before: seq<Packet>)
    requires Mirrors(router.State(), pl, topo, SendAll(topo, w, router.rtrId, before))
    requires forall j :: 0 <= j < |members| ==> members[j] in router.routeTable
    modifies router
    ensures router.routeTable == old(router.routeTable)
    ensures Mirrors(router.State(), pl, topo,
                    SendAll(topo, w, router.rtrId, before + GroupPackets(topo, router.rtrId, members, e)))
  {
    ghost var r := router.rtrId;
    ghost var ps := GroupPackets(topo, r, members, e);
    assert before + ps[..0] == before;
    for j := 0 to |members|
      invariant router.routeTable == old(router.routeTable)
      invariant Mirrors(router.State(), pl, topo, SendAll(topo, w, r, before + ps[..j]))
    {
      ghost var v := router.State();
      SeenMember(v, pl, topo, members[j], e(members[j]));
      SendMirrors(v, pl, topo, SendAll(topo, w, r, before + ps[..j]),
          Msg(AppId(r, NOBODY), v.table[members[j]], Down(e(members[j]))));
      SendAllMore(topo, w, r, before, ps, j);
      var ok := router.SendTo(members[j], Down(e(members[j])));
    }
    assert ps[..|members|] == ps;
  }

  /** RtrCommCreateEvent::process, after the communicator was entered. */
  method SendOpens(router: RouterNode, comm: CommId, groups: Groups, ghost pl: Place, ghost topo: Topo, ghost w: Wire)
    requires Mirrors(router.State(), pl, topo, w) && Listed(router.State(), groups)
    modifies router
    ensures Mirrors(router.State(), pl, topo,
        SendAll(topo, w, router.rtrId, OpenPackets(topo, router.rtrId, comm, groups, |groups|)))
  {
    for g := 0 to |groups|
      invariant router.routeTable == old(router.routeTable)
      invariant Mirrors(router.State(), pl, topo,
          SendAll(topo, w, router.rtrId, OpenPackets(topo, router.rtrId, comm, groups, g)))
    {
      SendGroup(router, groups[g], OpenFor(comm), pl, topo, w, OpenPackets(topo, router.rtrId, comm, groups, g));
    }
  }

  /** The second half of RtrCommReqEvent::process: the same request to every member, stamped with its group. */
  method SendQueries(router: RouterNode, comm: CommId, key: nat, attrs: seq<Attr>, groups: Groups,
                     ghost pl: Place, ghost topo: Topo, ghost w: Wire)
    requires Mirrors(router.State(), pl, topo, w) && Listed(router.State(), groups)
    modifies router
    ensures Mirrors(router.State(), pl, topo,
                    SendAll(topo, w, router.rtrId, QueryPackets(topo, router.rtrId, comm, key, attrs, groups,
                        |groups|)))
  {
    for g := 0 to |groups|
      invariant router.routeTable == old(router.routeTable)
      invariant Mirrors(router.State(), pl, topo,
                        SendAll(topo, w, router.rtrId, QueryPackets(topo, router.rtrId, comm, key, attrs, groups, g)))
    {
      SendGroup(router, groups[g], QueryFor(comm, key, g, attrs), pl, topo, w,
                QueryPackets(topo, router.rtrId, comm, key, attrs, groups, g));
    }
  }

  lemma MirrorsSame(v: View, pl: Place, topo: Topo, w: Wire, x: Wire)
    requires Mirrors(v, pl, topo, w) && x.link == w.link && x.inbox == w.inbox && x.pend == w.pend && x.up == w.up
    ensures Mirrors(v, pl, topo, x)
  {
    forall k | 0 <= k < |pl.peers| ensures LinkMirrors(v, pl, x, k) { assert LinkMirrors(v, pl, w, k); }
    forall m | m in v.table && topo.at(m) == v.rtrId ensures ServerMirrors(v, x, m) { assert ServerMirrors(v, w, m); }
  }

  lemma {:induction false} SendAllRest(topo: Topo, w: Wire, r: Router, ps: seq<Packet>)
    ensures var v := SendAll(topo, w, r, ps); v.rtr == w.rtr && v.side == w.side
  {
    if ps != [] { SendAllRest(topo, w, r, ps[..|ps| - 1]); }
  }

  // ----- whole steps -----

  /** A router and the network state agree on everything the router holds. */
  ghost predicate Agrees(router: RouterNode, reqs: Requests, pl: Place, topo: Topo, w: Wire)
    reads router, reqs, reqs.repr
  {
    && router !in reqs.repr && reqs.Valid()
    && Mirrors(router.State(), pl, topo, w) && reqs.State() == w.rtr(router.rtrId)
  }

  /** A CommCreate event of a client: the router takes the step of the network model. */
  method OnCreate(router: RouterNode, reqs: Requests, c: Client, comm: CommId, groups: Groups,
                  ghost pl: Place, ghost topo: Topo, ghost w: Wire)
    requires Agrees(router, reqs, pl, topo, w) && topo.cfg.home(c) == router.rtrId
    requires WDefined(topo, w, WAtRouter(c)) && w.side(c).up[0] == Create(comm, groups)
    requires Listed(router.State(), groups)
    modifies router, reqs
    ensures Agrees(router, reqs, pl, topo, WApply(topo, w, WAtRouter(c)))
  {
    ghost var v := Absorb(w, ApplyAtRouter(topo.cfg, Core(w, NoDown(), NoUp()), c));
    MirrorsSame(router.State(), pl, topo, w, v);
    SendAllRest(topo, v, router.rtrId, OpenPackets(topo, router.rtrId, comm, groups, |groups|));
    reqs.AddComm(c, comm, groups);
    SendOpens(router, comm, groups, pl, topo, v);
  }

  /** A CommReq event of a client: the router takes the step of the network model. */
  method OnRequest(router: RouterNode, reqs: Requests, c: Client, comm: CommId, id: nat, attrs: seq<Attr>,
                   ghost pl: Place, ghost topo: Topo, ghost w: Wire)
    requires Agrees(router, reqs, pl, topo, w) && topo.cfg.home(c) == router.rtrId
    requires WDefined(topo, w, WAtRouter(c)) && w.side(c).up[0] == Ask(comm, id, attrs)
    requires Listed(router.State(), w.rtr(router.rtrId).comms[(c, comm)])
    modifies router, reqs
    ensures Agrees(router, reqs, pl, topo, WApply(topo, w, WAtRouter(c)))
  {
    ghost var v := Absorb(w, ApplyAtRouter(topo.cfg, Core(w, NoDown(), NoUp()), c));
    MirrorsSame(router.State(), pl, topo, w, v);
    var key, groups := reqs.Start(c, id, comm, attrs);
    SendAllRest(topo, v, router.rtrId, QueryPackets(topo, router.rtrId, comm, key, attrs, groups, |groups|));
    SendQueries(router, comm, key, attrs, groups, pl, topo, v);
  }

  /**
    A router event from a link or a server: a reply for this router is gathered
    and may release an answer, anything else travels on.
   */
  method OnRouterEvent(router: RouterNode, reqs: Requests, p: Msg, ghost pl: Place, ghost topo: Topo, ghost w: Wire)
    returns (answer: Option<(Client, Answer)>)
    requires Agrees(router, reqs, pl, topo, w) && ArriveDefined(topo, w, router.rtrId, Seen(router.routeTable, p))
    requires RtrId(p.dest) in pl.routers && p.dest <= MISS
    requires p.dest in router.routeTable.Values || ServerId(p.dest) == NOBODY
    modifies router, reqs, reqs.repr
    ensures Agrees(router, reqs, pl, topo, Arrive(topo, w, router.rtrId, Seen(old(router.routeTable), p)))
    ensures var v := Arrive(topo, w, router.rtrId, Seen(old(router.routeTable), p));
            forall c :: v.side(c).down
              == w.side(c).down + if answer.Some? && answer.value.0 == c then [answer.value.1] else []
  {
    ghost var q := Seen(router.routeTable, p);
    ghost var v := Arrive(topo, w, router.rtrId, q);
    if RtrId(p.dest) == router.rtrId && ServerId(p.dest) == NOBODY {
      MirrorsSame(router.State(), pl, topo, w, v);
      var mine := router.Forward(p);
      answer := reqs.Reply(p.body.t);
    } else {
      SendMirrors(router.State(), pl, topo, w, p);
      var mine := router.Forward(p);
      answer := None;
    }
  }
}
