/**
  A server daemon: m_commMap, m_finiMap and its own context. Each method takes
  the step of the protocol model it is named after.
 */
module ServerDaemon {
  import opened Names
  import opened Gather
  import opened Circuits
  import opened AttrTree
  import opened Serving
  import opened Contexts

  lemma CommIff(config: Config, x: Name, a: Attr)
    requires WellFormed(config) && x in config.located && x != []
    ensures InfoOf(config, x, x, a).comm.Some? <==> Traverse(config, x, x, a).remote != {}
  {
    InfoIs(config, x, a);
  }

  class ServerNode {
    const config: Config
    const hw: Hardware
    const root: Name
    const chan: Channel
    /** m_commMap: the one object of each communicator. */
    var commMap: map<CommId, Name>
    /** m_finiMap, by the number of the event. */
    var finiMap: map<nat, Job>
    /** The communicator of the root object, once it was needed. */
    var comm: Option<DistComm>
    /** Number of the next request, and the requests without an answer. */
    var next: nat
    var waiting: set<nat>

    constructor (config: Config, hw: Hardware, root: Name, chan: Channel)
      ensures this.config == config && this.hw == hw && this.root == root && this.chan == chan
      ensures commMap == map[] && finiMap == map[] && comm == None && next == 0 && waiting == {}
    {
      this.config, this.hw, this.root, this.chan := config, hw, root, chan;
      commMap, finiMap, comm, next, waiting := map[], map[], None, 0, {};
    }

    /** The daemon holds what the model says of this server and its context. */
    ghost predicate Agrees(s: Net)
      reads this, chan, if comm.Some? then {comm.value} else {}
    {
      var side := s.side(Daemon(root));
      && s.srv(root).comms == commMap && s.srv(root).fini == finiMap
      && s.srv(root).own == (if comm.Some? then Some(comm.value.commID) else None)
      && side.up == chan.sent && side.next == next && side.waiting == waiting
      && (comm.Some? ==> comm.value.ec == Some(chan) && comm.value.commID in s.registry)
    }

    /** The rows of this server are those of its tree and devices, and it got through its startup. */
    ghost predicate Deployed(cfg: Cfg) {
      && WellFormed(config) && root in config.located && root != [] && Constructs(config, root, root)
      && cfg == Deployment(config, hw, cfg.home)
    }

    method InitFini(key: nat, job: Job)
      modifies this`finiMap
      ensures finiMap == old(finiMap)[key := job]
    {
      finiMap := finiMap[key := job];
    }

    method FreeFini(key: nat)
      requires key in finiMap
      modifies this`finiMap
      ensures finiMap == old(finiMap) - {key}
    {
      finiMap := finiMap - {key};
    }

    /** fini: the reply goes to where the request came from, and the entry is gone. */
    method Fini(key: nat, reply: Reply) returns (rtr: Router, t: Token)
      requires key in finiMap
      modifies this`finiMap
      ensures finiMap == old(finiMap) - {key}
      ensures rtr == old(finiMap)[key].rtr
      ensures t == Token(old(finiMap)[key].id, old(finiMap)[key].grp, root, reply)
    {
      var job := finiMap[key];
      rtr, t := job.rtr, Token(job.id, job.grp, root, reply);
      finiMap := finiMap - {key};
    }

    /** SrvrCommCreateEvent. */
    method OnOpen(rtr: Router, id: CommId, member: Name, newId: CommId, stamps: seq<nat>, ghost cfg: Cfg, ghost s: Net)
      requires Agrees(s) && next !in finiMap
      requires Defined(cfg, s, AtServer(rtr, root, newId, stamps)) && s.fwd(rtr, root)[0] == Open(id, member)
      modifies this
      ensures comm == old(comm) && Agrees(ApplyAtServer(cfg, s, rtr, root, newId, stamps))
    {
      InitFini(next, Job(rtr, 0, 0, []));
      commMap := commMap[id := member];
      FreeFini(next);
      assert finiMap == old(finiMap);
    }

    /** A request of the protocol model that this server can take now. */
    ghost predicate Takes(rtr: Router, id: CommId, req: nat, grp: nat, attrs: seq<Attr>, stamps: seq<nat>,
                          newId: CommId, cfg: Cfg, s: Net)
      reads this, chan, if comm.Some? then {comm.value} else {}
    {
      && Agrees(s) && Deployed(cfg) && next !in finiMap
      && Defined(cfg, s, AtServer(rtr, root, newId, stamps)) && s.fwd(rtr, root)[0] == Query(id, req, grp, attrs)
      && newId !in s.registry && s.srv(root).comms[id] == root
      && (comm.Some? ==> comm.value.groups == [MembersOf(config, root)])
    }

    /**
      SrvrCommReqEvent: the request is registered; it is answered at once from
      own devices, or its entry stays until the answer of other servers is in.
     */
    method OnQuery(rtr: Router, id: CommId, req: nat, grp: nat, attrs: seq<Attr>, stamps: seq<nat>,
                   newId: CommId, objects: seq<Name>, ghost cfg: Cfg, ghost s: Net) returns (reply: Option<Token>)
      requires Takes(rtr, id, req, grp, attrs, stamps, newId, cfg, s) && objects == MembersOf(config, root)
      modifies this, chan, if comm.Some? then {comm.value} else {}
      ensures Agrees(ApplyAtServer(cfg, s, rtr, root, newId, stamps))
      ensures ApplyAtServer(cfg, s, rtr, root, newId, stamps).back(rtr, root)
           == s.back(rtr, root) + if reply.Some? then [reply.value] else []
    {
      var info := InfoOf(config, root, root, attrs[0]);
      CommIff(config, root, attrs[0]);
      if info.comm.Some? {
        QueryElsewhere(rtr, id, req, grp, attrs, stamps, newId, objects, cfg, s);
        reply := None;
      } else {
        var t := QueryHere(rtr, id, req, grp, attrs, stamps, newId, cfg, s);
        reply := Some(t);
      }
    }

    method QueryHere(rtr: Router, id: CommId, req: nat, grp: nat, attrs: seq<Attr>, stamps: seq<nat>,
                     newId: CommId, ghost cfg: Cfg, ghost s: Net) returns (t: Token)
      requires Takes(rtr, id, req, grp, attrs, stamps, newId, cfg, s)
      requires Traverse(config, root, root, attrs[0]).remote == {}
      modifies this`finiMap
      ensures Agrees(ApplyAtServer(cfg, s, rtr, root, newId, stamps))
      ensures ApplyAtServer(cfg, s, rtr, root, newId, stamps).back(rtr, root) == s.back(rtr, root) + [t]
    {
      t := AnswerNow(rtr, req, grp, attrs, stamps);
      AnsweredState(rtr, id, req, grp, attrs, stamps, newId, cfg, s);
    }

    method QueryElsewhere(rtr: Router, id: CommId, req: nat, grp: nat, attrs: seq<Attr>, stamps: seq<nat>,
                          newId: CommId, objects: seq<Name>, ghost cfg: Cfg, ghost s: Net)
      requires Takes(rtr, id, req, grp, attrs, stamps, newId, cfg, s) && objects == MembersOf(config, root)
      requires Traverse(config, root, root, attrs[0]).remote != {}
      modifies this, chan, if comm.Some? then {comm.value} else {}
      ensures Agrees(ApplyAtServer(cfg, s, rtr, root, newId, stamps))
      ensures ApplyAtServer(cfg, s, rtr, root, newId, stamps).back(rtr, root) == s.back(rtr, root)
    {
      AskedState(rtr, id, req, grp, attrs, stamps, newId, cfg, s);
      AskAndAgree(rtr, req, grp, attrs, newId, objects, s, ApplyAtServer(cfg, s, rtr, root, newId, stamps));
    }

    /** State t is s after the server asked others. */
    ghost predicate Asked(s: Net, t: Net, rtr: Router, req: nat, grp: nat, attrs: seq<Attr>, newId: CommId,
                          objects: seq<Name>)
    {
      var sv, side, after := s.srv(root), s.side(Daemon(root)), t.side(Daemon(root));
      var own := if sv.own.Some? then sv.own.value else newId;
      && t.srv(root) == sv.(fini := sv.fini[side.next := Job(rtr, req, grp, attrs)], own := Some(own))
      && after.up == side.up + (if sv.own.Some? then []
            else [Create(newId, [objects])]) + [UpEvent.Ask(own, side.next, attrs)]
      && after.next == side.next + 1 && after.waiting == side.waiting + {side.next} && own in t.registry
    }

    method AskAndAgree(rtr: Router, req: nat, grp: nat, attrs: seq<Attr>, newId: CommId, objects: seq<Name>,
                       ghost s: Net, ghost t: Net)
      requires Agrees(s) && Asked(s, t, rtr, req, grp, attrs, newId, objects)
      requires comm.Some? ==> comm.value.groups == [objects]
      modifies this, chan, if comm.Some? then {comm.value} else {}
      ensures Agrees(t)
    {
      AskOthers(rtr, req, grp, attrs, newId, objects);
    }

    method AnswerNow(rtr: Router, req: nat, grp: nat, attrs: seq<Attr>, stamps: seq<nat>) returns (t: Token)
      requires WellFormed(config) && root in config.located && root != [] && attrs != []
          && SameComm(config, root, root, attrs)
      requires Traverse(config, root, root, attrs[0]).remote == {} && next !in finiMap
      modifies this`finiMap
      ensures finiMap == old(finiMap)
      ensures t == Token(req, grp, root, Reply(Owed(config, hw, root, attrs), stamps, []))
    {
      InitFini(next, Job(rtr, req, grp, attrs));
      var row := OwnRow(attrs);
      var r;
      r, t := Fini(next, Reply(row, stamps, []));
    }

    method AskOthers(rtr: Router, req: nat, grp: nat, attrs: seq<Attr>, newId: CommId, objects: seq<Name>)
      requires comm.Some? ==> comm.value.ec == Some(chan) && comm.value.groups == [objects]
      modifies this, chan, if comm.Some? then {comm.value} else {}
      ensures commMap == old(commMap) && finiMap == old(finiMap)[old(next) := Job(rtr, req, grp, attrs)]
      ensures comm.Some? && comm.value.ec == Some(chan) && comm.value.groups == [objects]
      ensures comm.value.commID == if old(comm).Some? then old(comm).value.commID else newId
      ensures next == old(next) + 1 && waiting == old(waiting) + {old(next)}
      ensures chan.sent == old(chan.sent) + (if old(comm).Some? then [] else [Create(newId, [objects])])
                           + [UpEvent.Ask(comm.value.commID, old(next), attrs)]
    {
      InitFini(next, Job(rtr, req, grp, attrs));
      Ask(next, attrs, newId, objects);
    }

    /** Object::attrGetValues of the root object. */
    method OwnRow(attrs: seq<Attr>) returns (row: Row)
      requires WellFormed(config) && root in config.located && root != [] && attrs != []
          && SameComm(config, root, root, attrs)
      requires Traverse(config, root, root, attrs[0]).remote == {}
      ensures row == Owed(config, hw, root, attrs)
    {
      var infos := seq(|attrs|, i requires 0 <= i < |attrs| => InfoOf(config, root, root, attrs[i]));
      CommIff(config, root, attrs[0]);
      var failed: bool;
      ghost var n: nat;
      row, failed, n := AttrGetValues(hw, attrs, infos);
      LocalRowIs(config, hw, root, attrs, infos, n, row);
      OwedLocally(attrs);
    }

    /** What the model's step is when the server answers from its own devices. */
    lemma AnsweredState(rtr: Router, id: CommId, req: nat, grp: nat, attrs: seq<Attr>, stamps: seq<nat>,
                        newId: CommId, cfg: Cfg, s: Net)
      requires Deployed(cfg) && attrs != [] && Traverse(config, root, root, attrs[0]).remote == {}
      requires Defined(cfg, s, AtServer(rtr, root, newId, stamps)) && s.fwd(rtr, root)[0] == Query(id, req, grp, attrs)
      requires s.srv(root).comms[id] == root
      ensures var t := ApplyAtServer(cfg, s, rtr, root, newId, stamps);
              && t.srv(root) == s.srv(root) && t.side == s.side && t.registry == s.registry
              && t.back(rtr, root)
                 == s.back(rtr, root) + [Token(req, grp, root, Reply(Owed(config, hw, root, attrs), stamps, []))]
    {
    }

    /** What the model's step is when the server asks others. */
    lemma AskedState(rtr: Router, id: CommId, req: nat, grp: nat, attrs: seq<Attr>, stamps: seq<nat>,
                     newId: CommId, cfg: Cfg, s: Net)
      requires Deployed(cfg) && attrs != [] && Traverse(config, root, root, attrs[0]).remote != {}
      requires Defined(cfg, s, AtServer(rtr, root, newId, stamps)) && s.fwd(rtr, root)[0] == Query(id, req, grp, attrs)
      requires s.srv(root).comms[id] == root && newId !in s.registry
      requires s.srv(root).own.Some? ==> s.srv(root).own.value in s.registry
      ensures var t := ApplyAtServer(cfg, s, rtr, root, newId, stamps);
              Asked(s, t, rtr, req, grp, attrs, newId, MembersOf(config, root))
                  && t.back(rtr, root) == s.back(rtr, root)
    {
      StartsIff(config, root);
      assert cfg.remote(root, attrs);
      assert cfg.members(root) == MembersOf(config, root);
    }

    lemma OwedLocally(attrs: seq<Attr>)
      requires WellFormed(config) && root in config.located && root != [] && attrs != []
      requires Traverse(config, root, root, attrs[0]).remote == {}
      ensures Owed(config, hw, root, attrs) == LocalRow(config, hw, root, attrs)
    {
      assert Listing(Traverse(config, root, root, attrs[0]).remote) == [];
    }

    /** DistObject::attrGetValues, when the object is read through other servers. */
    method Ask(key: nat, attrs: seq<Attr>, newId: CommId, objects: seq<Name>)
      requires key == next && (comm.Some? ==> comm.value.ec == Some(chan) && comm.value.groups == [objects])
      modifies this`comm, this`next, this`waiting, chan, if comm.Some? then {comm.value} else {}
      ensures comm.Some? && comm.value.ec == Some(chan) && comm.value.groups == [objects]
      ensures comm.value.commID == if old(comm).Some? then old(comm).value.commID else newId
      ensures next == key + 1 && waiting == old(waiting) + {key}
      ensures chan.sent == old(chan.sent) + (if old(comm).Some? then [] else [Create(newId, [objects])])
                           + [UpEvent.Ask(comm.value.commID, key, attrs)]
    {
      if comm.None? {
        var c := new DistComm(newId, objects);
        comm := Some(c);
      }
      waiting := waiting + {key};
      comm.value.GetValues(chan, key, attrs);
      next := next + 1;
    }

    /** makeProgress: the answer is copied, the callback sends the reply and removes the entry. */
    method OnAnswer(a: Answer, ghost cfg: Cfg, ghost s: Net) returns (rtr: Router, reply: Token)
      requires Agrees(s) && Defined(cfg, s, Deliver(Daemon(root))) && s.side(Daemon(root)).down[0] == a
      modifies this
      ensures comm == old(comm) && Agrees(ApplyDeliver(cfg, s, Daemon(root)))
      ensures ApplyDeliver(cfg, s, Daemon(root)).back(rtr, root) == s.back(rtr, root) + [reply]
      ensures reply.reply == Reply(a.resp.rows[0], a.resp.stamps[0], a.resp.errs)
    {
      waiting := waiting - {a.id};
      rtr, reply := Fini(a.id, Reply(a.resp.rows[0], a.resp.stamps[0], a.resp.errs));
    }
  }
}
