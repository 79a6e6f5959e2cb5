/**
  Runs in which applications ask only for what the servers can answer: every
  request on its way is fit, so no assert about the configuration ever fails.
 */
module CircuitFit {
  import opened Names
  import opened Circuits
  import opened CircuitInvariant
  import opened CircuitUse
  import opened CircuitRouter
  import opened CircuitServer

  /** A server for the object was started and got through its startup. */
  ghost predicate There(cfg: Cfg, m: Name) { m in cfg.started && cfg.opens(m) }

  ghost predicate MembersThere(cfg: Cfg, groups: Groups) {
    forall g, j :: 0 <= g < |groups| && 0 <= j < |groups[g]| ==> There(cfg, groups[g][j])
  }

  ghost predicate UpFit(cfg: Cfg, s: Net, e: UpEvent) {
    e.Ask? && e.comm in s.registry ==> GroupsFit(cfg, s.registry[e.comm].groups, e.attrs)
  }

  ghost predicate DownFit(cfg: Cfg, m: Name, e: DownEvent) {
    match e
    case Open(_, member) => There(cfg, member)
    case Query(_, _, _, attrs) => cfg.fit(m, attrs)
  }

  ghost predicate UpsFit(cfg: Cfg, s: Net, c: Client) {
    forall k :: 0 <= k < |s.side(c).up| ==> UpFit(cfg, s, s.side(c).up[k])
  }

  ghost predicate DownsFit(cfg: Cfg, s: Net, r: Router, m: Name) {
    forall k :: 0 <= k < |s.fwd(r, m)| ==> DownFit(cfg, m, s.fwd(r, m)[k])
  }

  /** Everything under way is fit. */
  ghost predicate Fits(cfg: Cfg, s: Net) {
    && (forall comm :: comm in s.registry ==> MembersThere(cfg, s.registry[comm].groups))
    && (forall c :: UpsFit(cfg, s, c))
    && (forall r: Router, m :: DownsFit(cfg, s, r, m))
  }

  lemma FitAsserted(cfg: Cfg, s: Net, step: Step)
    requires Good(cfg) && Inv(cfg, s) && Fits(cfg, s) && Enabled(cfg, s, step)
    ensures Asserted(cfg, s, step)
  {
    if step.AtServer? {
      assert DownsFit(cfg, s, step.rtr, step.srv) && ServerCommsOk(cfg, s, step.srv);
      assert DownFit(cfg, step.srv, s.fwd(step.rtr, step.srv)[0]);
    }
  }

  lemma FitThere(cfg: Cfg, groups: Groups, attrs: seq<Attr>)
    requires Good(cfg) && GroupsFit(cfg, groups, attrs)
    ensures MembersThere(cfg, groups)
  {
    forall g, j | 0 <= g < |groups| && 0 <= j < |groups[g]| ensures There(cfg, groups[g][j]) {
      assert MembersFit(cfg, groups[g], attrs) && cfg.fit(groups[g][j], attrs);
    }
  }

  lemma UseFits(cfg: Cfg, s: Net, client: Client, comm: CommId, groups: Groups, attrs: seq<Attr>)
    requires Good(cfg) && Inv(cfg, s) && Fits(cfg, s) && GroupsFit(cfg, groups, attrs)
    requires MayUse(s, client, comm, groups, attrs)
    ensures Fits(cfg, ApplyUse(s, client, comm, groups, attrs))
  {
    var t := ApplyUse(s, client, comm, groups, attrs);
    FitThere(cfg, groups, attrs);
    forall c ensures UpsFit(cfg, t, c) {
      var q := s.side(c).up;
      assert UpsFit(cfg, s, c) && UpOk(cfg, s, c);
      forall k | 0 <= k < |t.side(c).up| ensures UpFit(cfg, t, t.side(c).up[k]) {
        if k < |q| {
          assert t.side(c).up[k] == q[k] && UpFit(cfg, s, q[k]) && UpEventOk(s, c, q[k]);
        }
      }
    }
    forall r: Router, m ensures DownsFit(cfg, t, r, m) { assert DownsFit(cfg, s, r, m); }
  }

  lemma RouterFits(cfg: Cfg, s: Net, c: Client)
    requires Good(cfg) && Inv(cfg, s) && Fits(cfg, s) && s.side(c).up != [] && Defined(cfg, s, AtRouter(c))
    ensures Fits(cfg, ApplyAtRouter(cfg, s, c))
  {
    var t := ApplyAtRouter(cfg, s, c);
    forall d ensures UpsFit(cfg, t, d) {
      assert UpsFit(cfg, s, d);
      forall k | 0 <= k < |t.side(d).up| ensures UpFit(cfg, t, t.side(d).up[k]) {
        assert t.side(d).up[k] == s.side(d).up[if d == c then k + 1 else k];
      }
    }
    forall r: Router, m ensures DownsFit(cfg, t, r, m) {
      assert DownsFit(cfg, s, r, m);
      if r == cfg.home(c) { FanoutFits(cfg, s, c, m); }
    }
  }

  lemma FanoutFits(cfg: Cfg, s: Net, c: Client, m: Name)
    requires Good(cfg) && Inv(cfg, s) && Fits(cfg, s) && s.side(c).up != [] && Defined(cfg, s, AtRouter(c))
    ensures DownsFit(cfg, ApplyAtRouter(cfg, s, c), cfg.home(c), m)
  {
    var r, e := cfg.home(c), s.side(c).up[0];
    var t := ApplyAtRouter(cfg, s, c);
    assert UpOk(cfg, s, c) && UpEventOk(s, c, e) && UpsFit(cfg, s, c) && UpFit(cfg, s, e);
    assert TableOk(cfg, s, r) && DownsFit(cfg, s, r, m);
    hide Inv, Good, Fits;
    var groups := s.registry[e.comm].groups;
    forall k | 0 <= k < |t.fwd(r, m)| ensures DownFit(cfg, m, t.fwd(r, m)[k]) {
      if k < |s.fwd(r, m)| {
        assert t.fwd(r, m)[k] == s.fwd(r, m)[k] && DownFit(cfg, m, s.fwd(r, m)[k]);
      } else {
        SlotsMember(groups, m, k - |s.fwd(r, m)|);
        var g := Slots(groups, m, |groups|)[k - |s.fwd(r, m)|];
        var j :| 0 <= j < |groups[g]| && groups[g][j] == m;
        assert There(cfg, groups[g][j]);
        if e.Ask? { assert MembersFit(cfg, groups[g], e.attrs); }
      }
    }
  }

  lemma ServerFits(cfg: Cfg, s: Net, r: Router, m: Name, newId: CommId, stamps: seq<nat>)
    requires Good(cfg) && Fits(cfg, s) && Taking(cfg, s, r, m, newId, stamps)
    ensures Fits(cfg, ApplyAtServer(cfg, s, r, m, newId, stamps))
  {
    var t := ApplyAtServer(cfg, s, r, m, newId, stamps);
    forall q: Router, n ensures DownsFit(cfg, t, q, n) {
      assert DownsFit(cfg, s, q, n);
      forall k | 0 <= k < |t.fwd(q, n)| ensures DownFit(cfg, n, t.fwd(q, n)[k]) {
        assert t.fwd(q, n)[k] == s.fwd(q, n)[if q == r && n == m then k + 1 else k];
      }
    }
    if Forwards(cfg, s, r, m) {
      ForwardUse(cfg, s, r, m, newId, stamps);
      var e := s.fwd(r, m)[0];
      assert DownsFit(cfg, s, r, m) && DownFit(cfg, m, e) && ServerCommsOk(cfg, s, m);
      var groups := [cfg.members(m)];
      assert GroupsFit(cfg, groups, e.attrs);
      UseFits(cfg, s, Daemon(m), OwnComm(s, m, newId), groups, e.attrs);
      SameUps(cfg, ApplyUse(s, Daemon(m), OwnComm(s, m, newId), groups, e.attrs), t);
    } else {
      assert t.side == s.side && t.registry == s.registry;
      SameUps(cfg, s, t);
    }
  }

  lemma SameUps(cfg: Cfg, s: Net, t: Net)
    requires Fits(cfg, s) && t.side == s.side && t.registry == s.registry
    ensures forall c :: UpsFit(cfg, t, c)
    ensures forall comm :: comm in t.registry ==> MembersThere(cfg, t.registry[comm].groups)
  {
    forall c ensures UpsFit(cfg, t, c) {
      assert UpsFit(cfg, s, c);
      forall k | 0 <= k < |t.side(c).up| ensures UpFit(cfg, t, t.side(c).up[k])
      {
        assert UpFit(cfg, s, s.side(c).up[k]);
      }
    }
  }

  /** Nothing is sent that was not: only answers and replies move. */
  lemma NothingSent(cfg: Cfg, s: Net, t: Net)
    requires Fits(cfg, s) && t.registry == s.registry
    requires forall c :: t.side(c).up == s.side(c).up
    requires forall r: Router, m :: t.fwd(r, m) == s.fwd(r, m)
    ensures Fits(cfg, t)
  {
    forall c ensures UpsFit(cfg, t, c) {
      assert UpsFit(cfg, s, c);
      forall k | 0 <= k < |t.side(c).up| ensures UpFit(cfg, t, t.side(c).up[k])
      {
        assert UpFit(cfg, s, s.side(c).up[k]);
      }
    }
    forall r: Router, m ensures DownsFit(cfg, t, r, m) { assert DownsFit(cfg, s, r, m); }
  }

  /** An application asks for fit reads only. */
  ghost predicate FitUse(cfg: Cfg, step: Step) {
    step.Use? ==> GroupsFit(cfg, step.groups, step.attrs)
  }

  lemma FitKeeps(cfg: Cfg, s: Net, step: Step)
    requires Good(cfg) && Inv(cfg, s) && Fits(cfg, s) && Enabled(cfg, s, step) && Defined(cfg, s, step)
        && FitUse(cfg, step)
    ensures Fits(cfg, Apply(cfg, s, step))
  {
    match step
    case Use(c, comm, groups, attrs) => UseFits(cfg, s, External(c), comm, groups, attrs);
    case AtRouter(c) => RouterFits(cfg, s, c);
    case AtServer(r, m, newId, stamps) => ServerFits(cfg, s, r, m, newId, stamps);
    case AtReply(r, m) => NothingSent(cfg, s, ApplyAtReply(cfg, s, r, m));
    case Deliver(c) => NothingSent(cfg, s, ApplyDeliver(cfg, s, c));
  }
}
