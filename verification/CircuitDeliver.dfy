/** A context processes an answer; inside a server this completes the job it was asked for. */
module CircuitDeliver {
  import opened Names
  import opened Gather
  import opened Circuits
  import opened CircuitInvariant
  import opened CircuitSteps

  ghost predicate Delivering(cfg: Cfg, s: Net, c: Client)
    requires Good(cfg)
  {
    Inv(cfg, s) && s.side(c).down != [] && Defined(cfg, s, Deliver(c))
  }

  lemma DeliverStages(cfg: Cfg, s: Net, c: Client, d: Client, k: nat)
    requires Good(cfg) && Delivering(cfg, s, c)
    ensures ClientBalance(cfg, ApplyDeliver(cfg, s, c), d, k)
  {
    assert ClientBalance(cfg, s, d, k);
    if d == c {
      var a := s.side(c).down[0];
      CountAppend(s.side(c).done, [a], IsAnswer(k));
    }
  }

  lemma DeliverSide(cfg: Cfg, s: Net, c: Client, d: Client)
    requires Good(cfg) && Delivering(cfg, s, c)
    ensures SideOk(cfg, ApplyDeliver(cfg, s, c), d)
  {
    var t := ApplyDeliver(cfg, s, c);
    var x, y := s.side(d), t.side(d);
    assert SideOk(cfg, s, d);
    forall j | 0 <= j < |y.down| ensures AnswerOk(cfg, t, d, y.down[j]) {
      var e := if d == c then x.down[j + 1] else x.down[j];
      assert y.down[j] == e && AnswerOk(cfg, s, d, e);
    }
    forall j | 0 <= j < |y.done| ensures AnswerOk(cfg, t, d, y.done[j]) {
      if j < |x.done| { assert y.done[j] == x.done[j] && AnswerOk(cfg, s, d, x.done[j]); }
      else { assert y.done[j] == x.down[0] && AnswerOk(cfg, s, d, x.down[0]); }
    }
    if d == c {
      var a := x.down[0];
      forall k: nat ensures k in y.waiting <==> k in y.asked && Count(y.done, IsAnswer(k)) == 0 {
        CountAppend(x.done, [a], IsAnswer(k));
        assert Count([a], IsAnswer(k)) == if a.id == k then 1 else 0;
      }
    }
  }

  /** What the completed job sends back is the row this server owes. */
  lemma JobReply(cfg: Cfg, s: Net, c: Client)
    requires Good(cfg) && Delivering(cfg, s, c) && c.Daemon?
    ensures var a := s.side(c).down[0];
            var job := s.srv(c.name).fini[a.id];
            && job.id in s.rtr(job.rtr).infos && job.grp < |s.rtr(job.rtr).infos[job.id].groups|
            && ReplyOk(cfg, c.name, s.rtr(job.rtr).infos[job.id].attrs,
                  Reply(a.resp.rows[0], a.resp.stamps[0], a.resp.errs))
  {
    var a := s.side(c).down[0];
    assert SideOk(cfg, s, c) && AnswerOk(cfg, s, c, a);
    assert DaemonOk(cfg, s, c.name) && JobOk(cfg, s, c.name, a.id);
    var job := s.srv(c.name).fini[a.id];
    assert cfg.remote(c.name, job.attrs);
    var want := s.side(c).asked[a.id];
    assert s.registry[want.comm].groups == [cfg.members(c.name)];
    assert MembersFit(cfg, s.registry[want.comm].groups[0], want.attrs);
  }

  lemma DeliverCircuit(cfg: Cfg, s: Net, c: Client, q: Router, n: Name)
    requires Good(cfg) && Delivering(cfg, s, c)
    ensures CircuitOk(cfg, ApplyDeliver(cfg, s, c), q, n)
  {
    var t := ApplyDeliver(cfg, s, c);
    assert CircuitOk(cfg, s, q, n);
    forall k | 0 <= k < |t.fwd(q, n)| ensures QueryOk(t, q, t.fwd(q, n)[k]) { assert QueryOk(s, q, s.fwd(q, n)[k]); }
    forall k | 0 <= k < |t.back(q, n)| ensures TokenOk(cfg, t, q, n, t.back(q, n)[k]) {
      if k < |s.back(q, n)| {
        assert t.back(q, n)[k] == s.back(q, n)[k] && TokenOk(cfg, s, q, n, s.back(q, n)[k]);
      } else {
        JobReply(cfg, s, c);
      }
    }
  }

  lemma DeliverDaemon(cfg: Cfg, s: Net, c: Client, n: Name)
    requires Good(cfg) && Delivering(cfg, s, c)
    ensures DaemonOk(cfg, ApplyDeliver(cfg, s, c), n)
  {
    var t := ApplyDeliver(cfg, s, c);
    assert DaemonOk(cfg, s, n);
    forall k ensures JobOk(cfg, t, n, k) { assert JobOk(cfg, s, n, k); }
  }

  lemma JobsForRemove(fini: map<nat, Job>, key: nat, r: Router, i: nat, g: nat)
    requires key in fini
    ensures |JobsFor(fini - {key}, r, i, g)|
         == |JobsFor(fini, r, i, g)| - if fini[key].rtr == r && fini[key].id == i && fini[key].grp == g then 1 else 0
  {
    var before, after := JobsFor(fini, r, i, g), JobsFor(fini - {key}, r, i, g);
    forall j ensures j in after <==> j in before && j != key {}
    if fini[key].rtr == r && fini[key].id == i && fini[key].grp == g {
      assert after == before - {key};
    } else {
      assert after == before;
    }
  }

  lemma DeliverBalance(cfg: Cfg, s: Net, c: Client, q: Router, i: nat, g: nat, n: Name)
    requires Good(cfg) && Delivering(cfg, s, c)
    ensures Balance(ApplyDeliver(cfg, s, c), q, i, g, n)
  {
    assert Balance(s, q, i, g, n);
    if c == Daemon(n) {
      var a := s.side(c).down[0];
      var job := s.srv(n).fini[a.id];
      JobsForRemove(s.srv(n).fini, a.id, q, i, g);
      CountAppend(s.back(job.rtr, n), [Token(job.id, job.grp, n,
          Reply(a.resp.rows[0], a.resp.stamps[0], a.resp.errs))], IsToken(i, g));
    }
  }

  lemma DeliverKeeps(cfg: Cfg, s: Net, c: Client)
    requires Good(cfg) && Delivering(cfg, s, c)
    ensures Inv(cfg, ApplyDeliver(cfg, s, c))
  {
    var t := ApplyDeliver(cfg, s, c);
    forall d ensures UpOk(cfg, t, d) {
      assert UpOk(cfg, s, d);
      forall k | 0 <= k < |t.side(d).up| ensures UpEventOk(t, d, t.side(d).up[k])
      {
        assert UpEventOk(s, d, s.side(d).up[k]);
      }
      forall comm ensures CommKnown(cfg, t, d, comm) { assert CommKnown(cfg, s, d, comm); }
    }
    forall d ensures SideOk(cfg, t, d) { DeliverSide(cfg, s, c, d); }
    forall d, k: nat ensures ClientBalance(cfg, t, d, k) { DeliverStages(cfg, s, c, d, k); }
    forall q: Router ensures TableOk(cfg, t, q) { assert TableOk(cfg, s, q); }
    forall q: Router, d, x ensures MembersOk(t, q, d, x) { assert MembersOk(s, q, d, x); }
    forall q: Router, i: nat ensures RecordOk(cfg, t, q, i) { RecordKept(cfg, s, t, q, i); }
    forall q: Router, n ensures DownOk(t, q, n) && CircuitOk(cfg, t, q, n) {
      assert DownOk(s, q, n);
      DeliverCircuit(cfg, s, c, q, n);
    }
    forall n ensures ServerCommsOk(cfg, t, n) && DaemonOk(cfg, t, n) {
      assert ServerCommsOk(cfg, s, n);
      DeliverDaemon(cfg, s, c, n);
    }
    forall q: Router, i: nat, g: nat, n ensures Balance(t, q, i, g, n) { DeliverBalance(cfg, s, c, q, i, g, n); }
  }
}
