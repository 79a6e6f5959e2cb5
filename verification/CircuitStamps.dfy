/**
  Where the time stamps of an answer come from: every one was reported by a
  server for the attributes the answer is about.
 */
module CircuitStamps {
  import opened Names
  import opened Gather
  import opened Circuits
  import opened CircuitInvariant
  import opened CircuitSteps
  import opened CircuitServer
  import opened CircuitReply
  import opened CircuitDeliver
  import opened Refinement

  /** What was asked stays asked, through the communicator it was asked through. */
  ghost predicate Keeps(s: Net, t: Net) {
    && (forall c, k :: k in s.side(c).asked ==> k in t.side(c).asked && t.side(c).asked[k] == s.side(c).asked[k])
    && (forall x :: x in s.registry ==> x in t.registry && t.registry[x] == s.registry[x])
  }

  lemma StepKeeps(cfg: Cfg, s: Net, step: Step)
    requires Good(cfg) && Inv(cfg, s) && Enabled(cfg, s, step) && Defined(cfg, s, step)
    ensures Keeps(s, Apply(cfg, s, step))
  {
    match step
    case Use(c, _, _, _) => assert SideOk(cfg, s, External(c));
    case AtRouter(_) =>
    case AtServer(r, m, newId, stamps) => ServerKeeps(cfg, s, r, m, newId, stamps);
    case AtReply(r, m) => hide Good, Inv;
    case Deliver(_) =>
  }

  lemma ServerKeeps(cfg: Cfg, s: Net, r: Router, m: Name, newId: CommId, stamps: seq<nat>)
    requires Good(cfg) && Inv(cfg, s) && Enabled(cfg, s, AtServer(r, m, newId, stamps))
    requires Defined(cfg, s, AtServer(r, m, newId, stamps))
    ensures Keeps(s, Apply(cfg, s, AtServer(r, m, newId, stamps)))
  {
    RegistryKeeps(cfg, s, r, m, newId, stamps);
    hide ApplyAtServer;
    ServerContexts(cfg, s, r, m, newId, stamps);
  }

  lemma RegistryKeeps(cfg: Cfg, s: Net, r: Router, m: Name, newId: CommId, stamps: seq<nat>)
    requires Defined(cfg, s, AtServer(r, m, newId, stamps))
    ensures var t := ApplyAtServer(cfg, s, r, m, newId, stamps);
            forall x :: x in s.registry ==> x in t.registry && t.registry[x] == s.registry[x]
  {
  }

  lemma KeepsSame(s: Net, a: Net, b: Net)
    requires Keeps(s, a) && Same(a, b)
    ensures Keeps(s, b)
  {
  }

  // ----- reported time stamps -----

  /** Which time stamps the replies of a server may carry, for which attributes. */
  type Reports = (Name, seq<Attr>, seq<nat>) -> bool

  /** A server passes on what the servers it asks report. */
  ghost predicate PassedOn(cfg: Cfg, p: Reports) {
    forall m, a, n, st :: cfg.remote(m, a) && n in cfg.members(m) && p(n, a, st) ==> p(m, a, st)
  }

  ghost predicate FromGroup(p: Reports, names: seq<Name>, attrs: seq<Attr>, stamps: seq<nat>) {
    exists n :: n in names && p(n, attrs, stamps)
  }

  ghost predicate TokenTimed(s: Net, p: Reports, r: Router, t: Token) {
    t.id in s.rtr(r).infos ==> p(t.from, s.rtr(r).infos[t.id].attrs, t.reply.stamps)
  }

  ghost predicate RecordTimed(p: Reports, rec: Record) {
    forall g, j :: 0 <= g < |rec.from| && 0 <= j < |rec.from[g]| && g < |rec.info.respQ| && j < |rec.info.respQ[g]| ==>
      p(rec.from[g][j], rec.attrs, rec.info.respQ[g][j].stamps)
  }

  ghost predicate AnswerTimed(s: Net, p: Reports, c: Client, a: Answer) {
    a.id in s.side(c).asked && s.side(c).asked[a.id].comm in s.registry ==>
      var want := s.side(c).asked[a.id];
      var groups := s.registry[want.comm].groups;
      forall g :: 0 <= g < |groups| && g < |a.resp.stamps| ==> FromGroup(p, groups[g], want.attrs, a.resp.stamps[g])
  }

  ghost predicate SideTimed(s: Net, p: Reports, c: Client) {
    && (forall j :: 0 <= j < |s.side(c).down| ==> AnswerTimed(s, p, c, s.side(c).down[j]))
    && (forall j :: 0 <= j < |s.side(c).done| ==> AnswerTimed(s, p, c, s.side(c).done[j]))
  }

  ghost predicate RepliesTimed(s: Net, p: Reports, r: Router, m: Name) {
    forall k :: 0 <= k < |s.back(r, m)| ==> TokenTimed(s, p, r, s.back(r, m)[k])
  }

  ghost predicate RecordsTimed(s: Net, p: Reports, r: Router) {
    forall i :: i in s.rtr(r).infos ==> RecordTimed(p, s.rtr(r).infos[i])
  }

  /** Every time stamp under way, gathered or received was reported. */
  ghost predicate Timed(s: Net, p: Reports) {
    && (forall c :: SideTimed(s, p, c))
    && (forall r: Router :: RecordsTimed(s, p, r))
    && (forall r: Router, m :: RepliesTimed(s, p, r, m))
  }

  lemma AnswersKept(cfg: Cfg, s: Net, t: Net, p: Reports, c: Client)
    requires Good(cfg) && Inv(cfg, s) && SideTimed(s, p, c) && Keeps(s, t)
    requires t.side(c).down == s.side(c).down && t.side(c).done == s.side(c).done
    ensures SideTimed(t, p, c)
  {
    assert SideOk(cfg, s, c);
    forall j | 0 <= j < |t.side(c).down| ensures AnswerTimed(t, p, c, t.side(c).down[j]) {
      assert AnswerOk(cfg, s, c, s.side(c).down[j]) && AnswerTimed(s, p, c, s.side(c).down[j]);
    }
    forall j | 0 <= j < |t.side(c).done| ensures AnswerTimed(t, p, c, t.side(c).done[j]) {
      assert AnswerOk(cfg, s, c, s.side(c).done[j]) && AnswerTimed(s, p, c, s.side(c).done[j]);
    }
  }

  lemma UseTimed(cfg: Cfg, s: Net, p: Reports, step: Step)
    requires Good(cfg) && Inv(cfg, s) && Enabled(cfg, s, step) && Timed(s, p) && step.Use?
    ensures Timed(Apply(cfg, s, step), p)
  {
    var t := Apply(cfg, s, step);
    StepKeeps(cfg, s, step);
    forall c ensures SideTimed(t, p, c) { AnswersKept(cfg, s, t, p, c); }
    forall r: Router ensures RecordsTimed(t, p, r) { assert RecordsTimed(s, p, r); }
    forall r: Router, m ensures RepliesTimed(t, p, r, m) { assert RepliesTimed(s, p, r, m); }
  }

  lemma RouterTimed(cfg: Cfg, s: Net, p: Reports, d: Client)
    requires Good(cfg) && Inv(cfg, s) && Defined(cfg, s, AtRouter(d)) && Timed(s, p)
    ensures Timed(ApplyAtRouter(cfg, s, d), p)
  {
    var t := ApplyAtRouter(cfg, s, d);
    StepKeeps(cfg, s, AtRouter(d));
    forall c ensures SideTimed(t, p, c) { AnswersKept(cfg, s, t, p, c); }
    forall r: Router ensures RecordsTimed(t, p, r) { assert RecordsTimed(s, p, r); }
    forall r: Router, m ensures RepliesTimed(t, p, r, m) {
      assert RepliesTimed(s, p, r, m) && CircuitOk(cfg, s, r, m) && RecordOk(cfg, s, r, s.rtr(r).next);
      forall k | 0 <= k < |t.back(r, m)| ensures TokenTimed(t, p, r, t.back(r, m)[k]) {
        assert TokenTimed(s, p, r, s.back(r, m)[k]) && TokenOk(cfg, s, r, m, s.back(r, m)[k]);
      }
    }
  }

  /** A server that reads its own devices reports the time stamps of the step. */
  ghost predicate Reporting(cfg: Cfg, s: Net, p: Reports, step: Step) {
    step.AtServer? && s.fwd(step.rtr, step.srv) != [] && s.fwd(step.rtr, step.srv)[0].Query?
    && !cfg.remote(step.srv, s.fwd(step.rtr, step.srv)[0].attrs) ==>
      p(step.srv, s.fwd(step.rtr, step.srv)[0].attrs, step.stamps)
  }

  lemma ServerTimed(cfg: Cfg, s: Net, p: Reports, r: Router, m: Name, newId: CommId, stamps: seq<nat>)
    requires Good(cfg) && Taking(cfg, s, r, m, newId, stamps) && Timed(s, p)
    requires Reporting(cfg, s, p, AtServer(r, m, newId, stamps))
    ensures Timed(ApplyAtServer(cfg, s, r, m, newId, stamps), p)
  {
    var t := ApplyAtServer(cfg, s, r, m, newId, stamps);
    StepKeeps(cfg, s, AtServer(r, m, newId, stamps));
    forall c ensures SideTimed(t, p, c) { AnswersKept(cfg, s, t, p, c); }
    forall q: Router ensures RecordsTimed(t, p, q) { assert RecordsTimed(s, p, q); }
    assert CircuitOk(cfg, s, r, m) && ServerCommsOk(cfg, s, m) && QueryOk(s, r, s.fwd(r, m)[0]);
    forall q: Router, n ensures RepliesTimed(t, p, q, n) {
      assert RepliesTimed(s, p, q, n);
      forall k | 0 <= k < |t.back(q, n)| ensures TokenTimed(t, p, q, t.back(q, n)[k]) {
        if k < |s.back(q, n)| { assert t.back(q, n)[k] == s.back(q, n)[k] && TokenTimed(s, p, q, s.back(q, n)[k]); }
      }
    }
  }

  /** The record with the reply added is timed, and so is the answer it makes when it was the last one. */
  lemma NowTimed(cfg: Cfg, s: Net, p: Reports, r: Router, m: Name)
    requires Good(cfg) && Gathering(cfg, s, r, m) && Timed(s, p)
    ensures RecordTimed(p, Now(cfg, s, r, m))
  {
    var t := s.back(r, m)[0];
    var before := s.rtr(r).infos[t.id];
    assert CircuitOk(cfg, s, r, m) && TokenOk(cfg, s, r, m, t) && RecordOk(cfg, s, r, t.id);
    assert RepliesTimed(s, p, r, m) && TokenTimed(s, p, r, t) && RecordsTimed(s, p, r) && RecordTimed(p, before);
    assert GroupRecOk(cfg, before, t.grp);
    ProcessValid(before.info, t.grp, t.reply);
  }

  lemma GroupTimed(cfg: Cfg, s: Net, p: Reports, r: Router, m: Name, g: nat)
    requires Good(cfg) && Gathering(cfg, s, r, m) && Timed(s, p) && Now(cfg, s, r, m).info.pending == 0
    requires g < |Now(cfg, s, r, m).groups| && g < |Now(cfg, s, r, m).info.resp.stamps|
    ensures var rec := Now(cfg, s, r, m); FromGroup(p, rec.groups[g], rec.attrs, rec.info.resp.stamps[g])
  {
    var rec := Now(cfg, s, r, m);
    NowShape(cfg, s, r, m);
    NowTimed(cfg, s, p, r, m);
    CompleteNames(cfg, s, r, m, g);
    assert GroupRecOk(cfg, rec, g) && GroupOk(rec.info, g);
    assert |multiset(rec.from[g])| == |rec.from[g]| && |multiset(rec.groups[g])| == |rec.groups[g]|;
    var j := |rec.from[g]| - 1;
    assert rec.from[g][j] in multiset(rec.groups[g]);
    assert p(rec.from[g][j], rec.attrs, rec.info.respQ[g][j].stamps);
  }

  lemma ReplyTimed(cfg: Cfg, s: Net, p: Reports, r: Router, m: Name)
    requires Good(cfg) && Gathering(cfg, s, r, m) && Timed(s, p)
    ensures Timed(ApplyAtReply(cfg, s, r, m), p)
  {
    var t := ApplyAtReply(cfg, s, r, m);
    var rec := Now(cfg, s, r, m);
    NowShape(cfg, s, r, m);
    NowTimed(cfg, s, p, r, m);
    forall c ensures SideTimed(t, p, c) { ReplySideTimed(cfg, s, p, r, m, c); }
    forall q: Router ensures RecordsTimed(t, p, q) { assert RecordsTimed(s, p, q); }
    forall q: Router, n ensures RepliesTimed(t, p, q, n) {
      assert RepliesTimed(s, p, q, n);
      forall k | 0 <= k < |t.back(q, n)| ensures TokenTimed(t, p, q, t.back(q, n)[k]) {
        var j := if q == r && n == m then k + 1 else k;
        assert t.back(q, n)[k] == s.back(q, n)[j] && TokenTimed(s, p, q, s.back(q, n)[j]);
      }
    }
  }

  lemma ReplySideTimed(cfg: Cfg, s: Net, p: Reports, r: Router, m: Name, c: Client)
    requires Good(cfg) && Gathering(cfg, s, r, m) && Timed(s, p)
    ensures SideTimed(ApplyAtReply(cfg, s, r, m), p, c)
  {
    var t := ApplyAtReply(cfg, s, r, m);
    var i := s.back(r, m)[0].id;
    var rec := Now(cfg, s, r, m);
    NowShape(cfg, s, r, m);
    assert SideTimed(s, p, c) && RecordOk(cfg, s, r, i) && TableOk(cfg, s, r);
    forall j | 0 <= j < |t.side(c).done| ensures AnswerTimed(t, p, c, t.side(c).done[j]) {
      assert AnswerTimed(s, p, c, s.side(c).done[j]);
    }
    forall j | 0 <= j < |t.side(c).down| ensures AnswerTimed(t, p, c, t.side(c).down[j]) {
      if j < |s.side(c).down| {
        assert t.side(c).down[j] == s.side(c).down[j] && AnswerTimed(s, p, c, s.side(c).down[j]);
      } else {
        forall g | 0 <= g < |rec.groups| && g < |rec.info.resp.stamps|
          ensures FromGroup(p, rec.groups[g], rec.attrs, rec.info.resp.stamps[g])
        {
          GroupTimed(cfg, s, p, r, m, g);
        }
      }
    }
  }

  /** The reply of a completed job carries what one of the servers asked for it reported. */
  lemma JobTimed(cfg: Cfg, s: Net, p: Reports, c: Client)
    requires Good(cfg) && Delivering(cfg, s, c) && Timed(s, p) && PassedOn(cfg, p) && c.Daemon?
    ensures var a := s.side(c).down[0];
            var job := s.srv(c.name).fini[a.id];
            job.id in s.rtr(job.rtr).infos && p(c.name, s.rtr(job.rtr).infos[job.id].attrs, a.resp.stamps[0])
  {
    var a := s.side(c).down[0];
    assert SideOk(cfg, s, c) && AnswerOk(cfg, s, c, a) && SideTimed(s, p, c) && AnswerTimed(s, p, c, a);
    assert DaemonOk(cfg, s, c.name) && JobOk(cfg, s, c.name, a.id);
    var want := s.side(c).asked[a.id];
    assert s.registry[want.comm].groups == [cfg.members(c.name)];
    assert FromGroup(p, cfg.members(c.name), want.attrs, a.resp.stamps[0]);
  }

  lemma DeliverTimed(cfg: Cfg, s: Net, p: Reports, d: Client)
    requires Good(cfg) && Delivering(cfg, s, d) && Timed(s, p) && PassedOn(cfg, p)
    ensures Timed(ApplyDeliver(cfg, s, d), p)
  {
    var t := ApplyDeliver(cfg, s, d);
    forall c ensures SideTimed(t, p, c) {
      assert SideTimed(s, p, c);
      forall j | 0 <= j < |t.side(c).down| ensures AnswerTimed(t, p, c, t.side(c).down[j]) {
        assert AnswerTimed(s, p, c, s.side(c).down[if c == d then j + 1 else j]);
      }
      forall j | 0 <= j < |t.side(c).done| ensures AnswerTimed(t, p, c, t.side(c).done[j]) {
        if j < |s.side(c).done| {
          assert AnswerTimed(s, p, c, s.side(c).done[j]);
        } else {
          assert AnswerTimed(s, p, c, s.side(c).down[0]);
        }
      }
    }
    forall r: Router ensures RecordsTimed(t, p, r) { assert RecordsTimed(s, p, r); }
    forall r: Router, m ensures RepliesTimed(t, p, r, m) {
      assert RepliesTimed(s, p, r, m);
      forall k | 0 <= k < |t.back(r, m)| ensures TokenTimed(t, p, r, t.back(r, m)[k]) {
        if k < |s.back(r, m)| {
          assert t.back(r, m)[k] == s.back(r, m)[k] && TokenTimed(s, p, r, s.back(r, m)[k]);
        } else {
          JobTimed(cfg, s, p, d);
        }
      }
    }
  }

  /** Each step hands on only time stamps that were reported; a server that reads its own devices reports new ones. */
  lemma StepTimed(cfg: Cfg, s: Net, p: Reports, step: Step)
    requires Good(cfg) && Inv(cfg, s) && Enabled(cfg, s, step) && Defined(cfg, s, step)
    requires Timed(s, p) && PassedOn(cfg, p) && Reporting(cfg, s, p, step)
    ensures Timed(Apply(cfg, s, step), p)
  {
    match step
    case Use(_, _, _, _) => UseTimed(cfg, s, p, step);
    case AtRouter(c) => RouterTimed(cfg, s, p, c);
    case AtServer(r, m, newId, stamps) => ServerTimed(cfg, s, p, r, m, newId, stamps);
    case AtReply(r, m) => ReplyTimed(cfg, s, p, r, m);
    case Deliver(c) => DeliverTimed(cfg, s, p, c);
  }

  lemma SameTimed(s: Net, t: Net, p: Reports)
    requires Timed(s, p) && Same(s, t)
    ensures Timed(t, p)
  {
    forall c ensures SideTimed(t, p, c) {
      assert SideTimed(s, p, c);
      forall j | 0 <= j < |t.side(c).down| ensures AnswerTimed(t, p, c, t.side(c).down[j]) {
        assert AnswerTimed(s, p, c, s.side(c).down[j]);
      }
      forall j | 0 <= j < |t.side(c).done| ensures AnswerTimed(t, p, c, t.side(c).done[j]) {
        assert AnswerTimed(s, p, c, s.side(c).done[j]);
      }
    }
    forall r: Router ensures RecordsTimed(t, p, r) { assert RecordsTimed(s, p, r); }
    forall r: Router, m ensures RepliesTimed(t, p, r, m) {
      assert RepliesTimed(s, p, r, m);
      forall k | 0 <= k < |t.back(r, m)| ensures TokenTimed(t, p, r, t.back(r, m)[k]) {
        assert TokenTimed(s, p, r, s.back(r, m)[k]);
      }
    }
  }

  /** What was reported once stays reported. */
  lemma MoreTimed(s: Net, p: Reports, q: Reports)
    requires Timed(s, p) && forall m, a, st :: p(m, a, st) ==> q(m, a, st)
    ensures Timed(s, q)
  {
    forall c ensures SideTimed(s, q, c) {
      assert SideTimed(s, p, c);
      forall a: Answer | AnswerTimed(s, p, c, a) ensures AnswerTimed(s, q, c, a) { WiderAnswer(s, p, q, c, a); }
    }
    forall r: Router ensures RecordsTimed(s, q, r) { assert RecordsTimed(s, p, r); }
    forall r: Router, m ensures RepliesTimed(s, q, r, m) {
      assert RepliesTimed(s, p, r, m);
      forall k | 0 <= k < |s.back(r, m)| ensures TokenTimed(s, q, r, s.back(r, m)[k]) {
        assert TokenTimed(s, p, r, s.back(r, m)[k]);
      }
    }
  }

  lemma WiderAnswer(s: Net, p: Reports, q: Reports, c: Client, a: Answer)
    requires AnswerTimed(s, p, c, a) && forall m, b, st :: p(m, b, st) ==> q(m, b, st)
    ensures AnswerTimed(s, q, c, a)
  {
    if a.id in s.side(c).asked && s.side(c).asked[a.id].comm in s.registry {
      var want := s.side(c).asked[a.id];
      var groups := s.registry[want.comm].groups;
      forall g | 0 <= g < |groups| && g < |a.resp.stamps| ensures FromGroup(q, groups[g], want.attrs, a.resp.stamps[g])
      {
        assert FromGroup(p, groups[g], want.attrs, a.resp.stamps[g]);
      }
    }
  }
}
