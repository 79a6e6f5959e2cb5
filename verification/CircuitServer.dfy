/**
  A server takes the next event a router sent it: it registers a communicator,
  answers from its own devices, or becomes a client itself and notes the job.
 */
module CircuitServer {
  import opened Names
  import opened Gather
  import opened Circuits
  import opened CircuitInvariant
  import opened CircuitUse
  import opened CircuitSteps
  import opened CircuitRouter

  ghost predicate Taking(cfg: Cfg, s: Net, r: Router, m: Name, newId: CommId, stamps: seq<nat>)
    requires Good(cfg)
  {
    && Inv(cfg, s) && Enabled(cfg, s, AtServer(r, m, newId, stamps)) && Defined(cfg, s, AtServer(r, m, newId, stamps))
  }

  /** Whether the event makes the server ask others. */
  ghost predicate Forwards(cfg: Cfg, s: Net, r: Router, m: Name)
    requires s.fwd(r, m) != [] && (s.fwd(r, m)[0].Query? ==> s.fwd(r, m)[0].comm in s.srv(m).comms)
  {
    s.fwd(r, m)[0].Query? && cfg.remote(s.srv(m).comms[s.fwd(r, m)[0].comm], s.fwd(r, m)[0].attrs)
  }

  ghost function OwnComm(s: Net, m: Name, newId: CommId): CommId {
    if s.srv(m).own.Some? then s.srv(m).own.value else newId
  }

  /** When the server asks others, its context makes an ordinary use of its one communicator. */
  lemma ForwardUse(cfg: Cfg, s: Net, r: Router, m: Name, newId: CommId, stamps: seq<nat>)
    requires Good(cfg) && Taking(cfg, s, r, m, newId, stamps) && Forwards(cfg, s, r, m)
    ensures var attrs := s.fwd(r, m)[0].attrs;
            var t := ApplyAtServer(cfg, s, r, m, newId, stamps);
            var u := ApplyUse(s, Daemon(m), OwnComm(s, m, newId), [cfg.members(m)], attrs);
            && MayUse(s, Daemon(m), OwnComm(s, m, newId), [cfg.members(m)], attrs)
            && t.side == u.side && t.registry == u.registry && t.rtr == u.rtr && t.back == u.back
  {
    var e := s.fwd(r, m)[0];
    var popped := PopFwd(s, r, m);
    var own := OwnComm(s, m, newId);
    assert ServerCommsOk(cfg, s, m) && DaemonOk(cfg, s, m) && CircuitOk(cfg, s, r, m);
    assert QueryOk(s, r, e) && RecordOk(cfg, s, r, e.id);
    var a := ApplyUse(popped, Daemon(m), own, [cfg.members(m)], e.attrs);
    var b := ApplyUse(s, Daemon(m), own, [cfg.members(m)], e.attrs);
    var x := Asking(s.side(Daemon(m)), own, e.attrs, if own in s.registry then [] else [Create(own, [cfg.members(m)])]);
    assert popped.side == s.side;
    SideOnly(popped, s, Daemon(m), own, [cfg.members(m)], e.attrs);
  }

  lemma SideOnly(a: Net, b: Net, client: Client, comm: CommId, groups: Groups, attrs: seq<Attr>)
    requires a.side == b.side && a.registry == b.registry && a.rtr == b.rtr && a.back == b.back
    ensures var x, y := ApplyUse(a, client, comm, groups, attrs), ApplyUse(b, client, comm, groups, attrs);
            x.side == y.side && x.registry == y.registry && x.rtr == y.rtr && x.back == y.back
  {
  }

  lemma ServerContexts(cfg: Cfg, s: Net, r: Router, m: Name, newId: CommId, stamps: seq<nat>)
    requires Good(cfg) && Taking(cfg, s, r, m, newId, stamps)
    ensures var t := ApplyAtServer(cfg, s, r, m, newId, stamps);
            && RegistryOk(t) && AskedGrows(s, t) && t.rtr == s.rtr
            && (forall d :: UpOk(cfg, t, d)) && (forall d :: SideOk(cfg, t, d))
            && (forall d, k: nat :: ClientBalance(cfg, t, d, k))
            && (forall q: Router :: TableOk(cfg, t, q))
  {
    if Forwards(cfg, s, r, m) {
      ForwardContexts(cfg, s, r, m, newId, stamps);
    } else {
      var t := ApplyAtServer(cfg, s, r, m, newId, stamps);
      assert t.side == s.side && t.registry == s.registry && t.rtr == s.rtr;
      forall d ensures UpOk(cfg, t, d) { UpOkSame(cfg, s, t, d); }
      forall d ensures SideOk(cfg, t, d) { SideOkSame(cfg, s, t, d); }
      forall d, k: nat ensures ClientBalance(cfg, t, d, k) { assert ClientBalance(cfg, s, d, k); }
      forall q: Router ensures TableOk(cfg, t, q) { assert TableOk(cfg, s, q); }
    }
  }

  lemma ForwardContexts(cfg: Cfg, s: Net, r: Router, m: Name, newId: CommId, stamps: seq<nat>)
    requires Good(cfg) && Taking(cfg, s, r, m, newId, stamps) && Forwards(cfg, s, r, m)
    ensures var t := ApplyAtServer(cfg, s, r, m, newId, stamps);
            && RegistryOk(t) && AskedGrows(s, t) && t.rtr == s.rtr
            && (forall d :: UpOk(cfg, t, d)) && (forall d :: SideOk(cfg, t, d))
            && (forall d, k: nat :: ClientBalance(cfg, t, d, k))
            && (forall q: Router :: TableOk(cfg, t, q))
  {
    var t := ApplyAtServer(cfg, s, r, m, newId, stamps);
    ForwardUse(cfg, s, r, m, newId, stamps);
    var me, own, groups, attrs := Daemon(m), OwnComm(s, m, newId), [cfg.members(m)], s.fwd(r, m)[0].attrs;
    var u := ApplyUse(s, me, own, groups, attrs);
    UseRegistry(cfg, s, me, own, groups, attrs);
    assert SideOk(cfg, s, me);
    forall d ensures UpOk(cfg, t, d) {
      UseUp(cfg, s, me, own, groups, attrs, d);
      UpOkSame(cfg, u, t, d);
    }
    forall d ensures SideOk(cfg, t, d) {
      UseSide(cfg, s, me, own, groups, attrs, d);
      SideOkSame(cfg, u, t, d);
    }
    forall d, k: nat ensures ClientBalance(cfg, t, d, k) {
      assert SideOk(cfg, s, d);
      UseBalance(cfg, s, me, own, groups, attrs, d, k);
      assert ClientBalance(cfg, u, d, k);
    }
    forall q: Router ensures TableOk(cfg, t, q) { assert TableOk(cfg, u, q); }
  }

  lemma UpOkSame(cfg: Cfg, s: Net, t: Net, c: Client)
    requires UpOk(cfg, s, c) && t.side == s.side && t.registry == s.registry && t.rtr == s.rtr
    ensures UpOk(cfg, t, c)
  {
    forall k | 0 <= k < |t.side(c).up| ensures UpEventOk(t, c, t.side(c).up[k])
    {
      assert UpEventOk(s, c, s.side(c).up[k]);
    }
    forall comm ensures CommKnown(cfg, t, c, comm) { assert CommKnown(cfg, s, c, comm); }
  }

  lemma SideOkSame(cfg: Cfg, s: Net, t: Net, c: Client)
    requires Good(cfg) && SideOk(cfg, s, c) && t.side == s.side && t.registry == s.registry
    ensures SideOk(cfg, t, c)
  {
    forall j | 0 <= j < |t.side(c).down| ensures AnswerOk(cfg, t, c, t.side(c).down[j])
    {
      assert AnswerOk(cfg, s, c, s.side(c).down[j]);
    }
    forall j | 0 <= j < |t.side(c).done| ensures AnswerOk(cfg, t, c, t.side(c).done[j])
    {
      assert AnswerOk(cfg, s, c, s.side(c).done[j]);
    }
  }

  lemma ServerDown(cfg: Cfg, s: Net, r: Router, m: Name, newId: CommId, stamps: seq<nat>, q: Router, n: Name)
    requires Good(cfg) && Taking(cfg, s, r, m, newId, stamps)
    ensures DownOk(ApplyAtServer(cfg, s, r, m, newId, stamps), q, n)
    ensures ServerCommsOk(cfg, ApplyAtServer(cfg, s, r, m, newId, stamps), n)
  {
    var t := ApplyAtServer(cfg, s, r, m, newId, stamps);
    assert DownOk(s, q, n) && ServerCommsOk(cfg, s, n) && DownOk(s, r, m);
    if q == r && n == m {
      assert t.fwd(q, n) == s.fwd(r, m)[1..];
      forall k | 0 <= k < |t.fwd(q, n)| ensures t.fwd(q, n)[k] == s.fwd(r, m)[k + 1] {}
      var known := if s.fwd(r, m)[0].Open? then s.srv(m).comms.Keys + {s.fwd(r, m)[0].comm} else s.srv(m).comms.Keys;
      assert t.srv(m).comms.Keys == known;
    } else if n == m {
      OrderedDownGrow(s.fwd(q, n), s.srv(n).comms.Keys, t.srv(n).comms.Keys);
    }
  }

  lemma ServerMembers(cfg: Cfg, s: Net, r: Router, m: Name, newId: CommId, stamps: seq<nat>, q: Router, d: Client,
                      x: CommId)
    requires Good(cfg) && Taking(cfg, s, r, m, newId, stamps)
    ensures MembersOk(ApplyAtServer(cfg, s, r, m, newId, stamps), q, d, x)
  {
    var t := ApplyAtServer(cfg, s, r, m, newId, stamps);
    assert MembersOk(s, q, d, x);
    assert t.rtr == s.rtr;
    if (d, x) in t.rtr(q).comms {
      var groups := t.rtr(q).comms[(d, x)];
      forall g, j | 0 <= g < |groups| && 0 <= j < |groups[g]| ensures MemberReady(t, q, x, groups[g][j]) {
        var n := groups[g][j];
        assert MemberReady(s, q, x, n);
        if x !in s.srv(n).comms {
          var k :| 0 <= k < |s.fwd(q, n)| && s.fwd(q, n)[k].Open? && s.fwd(q, n)[k].comm == x;
          if q == r && n == m {
            assert t.fwd(q, n) == s.fwd(q, n)[1..];
            if 0 < k { assert t.fwd(q, n)[k - 1] == s.fwd(q, n)[k]; }
          } else {
            assert t.fwd(q, n) == s.fwd(q, n);
          }
        }
      }
    }
  }

  lemma ServerCircuit(cfg: Cfg, s: Net, r: Router, m: Name, newId: CommId, stamps: seq<nat>, q: Router, n: Name)
    requires Good(cfg) && Taking(cfg, s, r, m, newId, stamps)
    ensures CircuitOk(cfg, ApplyAtServer(cfg, s, r, m, newId, stamps), q, n)
  {
    var t := ApplyAtServer(cfg, s, r, m, newId, stamps);
    assert CircuitOk(cfg, s, q, n) && CircuitOk(cfg, s, r, m);
    var e := s.fwd(r, m)[0];
    assert QueryOk(s, r, e) && ServerCommsOk(cfg, s, m);
    forall k | 0 <= k < |t.fwd(q, n)| ensures QueryOk(t, q, t.fwd(q, n)[k]) {
      if q == r && n == m { assert t.fwd(q, n)[k] == s.fwd(q, n)[k + 1]; }
      assert QueryOk(s, q, t.fwd(q, n)[k]);
    }
    forall k | 0 <= k < |t.back(q, n)| ensures TokenOk(cfg, t, q, n, t.back(q, n)[k]) {
      if k < |s.back(q, n)| {
        assert t.back(q, n)[k] == s.back(q, n)[k] && TokenOk(cfg, s, q, n, s.back(q, n)[k]);
      }
    }
  }

  lemma ServerDaemon(cfg: Cfg, s: Net, r: Router, m: Name, newId: CommId, stamps: seq<nat>, n: Name)
    requires Good(cfg) && Taking(cfg, s, r, m, newId, stamps)
    ensures DaemonOk(cfg, ApplyAtServer(cfg, s, r, m, newId, stamps), n)
  {
    var t := ApplyAtServer(cfg, s, r, m, newId, stamps);
    assert DaemonOk(cfg, s, n);
    ServerContexts(cfg, s, r, m, newId, stamps);
    if Forwards(cfg, s, r, m) && n == m {
      ForwardUse(cfg, s, r, m, newId, stamps);
      var e := s.fwd(r, m)[0];
      assert CircuitOk(cfg, s, r, m) && QueryOk(s, r, e) && ServerCommsOk(cfg, s, m);
      assert SideOk(cfg, s, Daemon(m));
      var key := s.side(Daemon(m)).next;
      forall k ensures JobOk(cfg, t, m, k) {
        assert JobOk(cfg, s, m, k);
      }
    } else {
      if Forwards(cfg, s, r, m) {
        ForwardUse(cfg, s, r, m, newId, stamps);
        UseRegistry(cfg, s, Daemon(m), OwnComm(s, m, newId), [cfg.members(m)], s.fwd(r, m)[0].attrs);
      }
      assert t.srv(n).fini == s.srv(n).fini && t.srv(n).own == s.srv(n).own;
      forall k ensures JobOk(cfg, t, n, k) { JobKept(cfg, s, t, n, k); }
    }
  }

  lemma JobsForAdd(fini: map<nat, Job>, key: nat, job: Job, r: Router, i: nat, g: nat)
    requires key !in fini
    ensures |JobsFor(fini[key := job], r, i, g)|
         == |JobsFor(fini, r, i, g)| + if job.rtr == r && job.id == i && job.grp == g then 1 else 0
  {
    var before, after := JobsFor(fini, r, i, g), JobsFor(fini[key := job], r, i, g);
    if job.rtr == r && job.id == i && job.grp == g {
      assert after == before + {key};
    } else {
      assert after == before;
    }
  }

  lemma ServerBalance(cfg: Cfg, s: Net, r: Router, m: Name, newId: CommId, stamps: seq<nat>, q: Router, i: nat,
                      g: nat, n: Name)
    requires Good(cfg) && Taking(cfg, s, r, m, newId, stamps)
    ensures Balance(ApplyAtServer(cfg, s, r, m, newId, stamps), q, i, g, n)
  {
    var t := ApplyAtServer(cfg, s, r, m, newId, stamps);
    assert Balance(s, q, i, g, n);
    assert t.rtr == s.rtr;
    var e := s.fwd(r, m)[0];
    if n == m {
      if Forwards(cfg, s, r, m) {
        var key := s.side(Daemon(m)).next;
        assert DaemonOk(cfg, s, m) && SideOk(cfg, s, Daemon(m));
        JobsForAdd(s.srv(m).fini, key, Job(r, e.id, e.grp, e.attrs), q, i, g);
      } else if q == r && e.Query? {
        var token := Token(e.id, e.grp, m, Reply(cfg.row(s.srv(m).comms[e.comm], e.attrs), stamps, []));
        CountAppend(s.back(r, m), [token], IsToken(i, g));
      }
    }
  }

  lemma AtServerKeeps(cfg: Cfg, s: Net, r: Router, m: Name, newId: CommId, stamps: seq<nat>)
    requires Good(cfg) && Taking(cfg, s, r, m, newId, stamps)
    ensures Inv(cfg, ApplyAtServer(cfg, s, r, m, newId, stamps))
  {
    var t := ApplyAtServer(cfg, s, r, m, newId, stamps);
    ServerContexts(cfg, s, r, m, newId, stamps);
    forall q: Router, d, x ensures MembersOk(t, q, d, x) { ServerMembers(cfg, s, r, m, newId, stamps, q, d, x); }
    forall q: Router, i: nat ensures RecordOk(cfg, t, q, i) { RecordKept(cfg, s, t, q, i); }
    forall q: Router, n ensures DownOk(t, q, n) && CircuitOk(cfg, t, q, n) {
      ServerDown(cfg, s, r, m, newId, stamps, q, n);
      ServerCircuit(cfg, s, r, m, newId, stamps, q, n);
    }
    forall n ensures ServerCommsOk(cfg, t, n) && DaemonOk(cfg, t, n) {
      ServerDown(cfg, s, r, m, newId, stamps, r, n);
      ServerDaemon(cfg, s, r, m, newId, stamps, n);
    }
    forall q: Router, i: nat, g: nat, n ensures Balance(t, q, i, g, n) {
      ServerBalance(cfg, s, r, m, newId, stamps, q, i, g, n);
    }
  }
}
