/** Each step of the read protocol keeps the invariant. */
module CircuitSteps {
  import opened Names
  import opened Circuits
  import opened CircuitInvariant
  import opened CircuitUse

  /** Requests are never forgotten or altered. */
  ghost predicate AskedGrows(s: Net, t: Net) {
    forall c, k: nat :: k in s.side(c).asked ==> k in t.side(c).asked && t.side(c).asked[k] == s.side(c).asked[k]
  }

  lemma RecordKept(cfg: Cfg, s: Net, t: Net, r: Router, i: nat)
    requires RecordOk(cfg, s, r, i) && AskedGrows(s, t) && t.rtr(r) == s.rtr(r)
    ensures RecordOk(cfg, t, r, i)
  {
  }

  lemma JobKept(cfg: Cfg, s: Net, t: Net, m: Name, k: nat)
    requires JobOk(cfg, s, m, k) && AskedGrows(s, t) && t.rtr == s.rtr && t.srv(m).fini == s.srv(m).fini
    ensures JobOk(cfg, t, m, k)
  {
  }

  // ----- a client uses a communicator -----

  lemma UseKeeps(cfg: Cfg, s: Net, c: nat, comm: CommId, groups: Groups, attrs: seq<Attr>)
    requires Good(cfg) && Inv(cfg, s) && Enabled(cfg, s, Use(c, comm, groups, attrs))
    ensures Inv(cfg, ApplyUse(s, External(c), comm, groups, attrs))
  {
    var me := External(c);
    var t := ApplyUse(s, me, comm, groups, attrs);
    UseRegistry(cfg, s, me, comm, groups, attrs);
    forall d ensures UpOk(cfg, t, d) { UseUp(cfg, s, me, comm, groups, attrs, d); }
    forall d ensures SideOk(cfg, t, d) { UseSide(cfg, s, me, comm, groups, attrs, d); }
    forall d, k: nat ensures ClientBalance(cfg, t, d, k) {
      assert SideOk(cfg, s, d);
      UseBalance(cfg, s, me, comm, groups, attrs, d, k);
    }
    assert SideOk(cfg, s, me);
    assert AskedGrows(s, t);
    forall r: Router, d, x ensures MembersOk(t, r, d, x) { assert MembersOk(s, r, d, x); }
    forall r: Router, i: nat ensures RecordOk(cfg, t, r, i) { RecordKept(cfg, s, t, r, i); }
    forall r: Router, m ensures DownOk(t, r, m) && CircuitOk(cfg, t, r, m) {
      assert DownOk(s, r, m) && CircuitOk(cfg, s, r, m);
    }
    forall m ensures ServerCommsOk(cfg, t, m) && DaemonOk(cfg, t, m) {
      assert ServerCommsOk(cfg, s, m) && DaemonOk(cfg, s, m);
      forall k ensures JobOk(cfg, t, m, k) { JobKept(cfg, s, t, m, k); }
    }
    forall r: Router, i: nat, g: nat, m ensures Balance(t, r, i, g, m) { assert Balance(s, r, i, g, m); }
  }
}
