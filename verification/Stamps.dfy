/** Over whole runs: every time stamp an answer carries was reported by a server that read its own devices. */
module Stamps {
  import opened Names
  import opened Circuits
  import opened CircuitInvariant
  import opened CircuitStamps
  import opened Network
  import opened Refinement
  import opened Simulation
  import opened Runs

  /** In step k server x answers a request for these attributes at once, from its own devices, with these stamps. */
  ghost predicate ReportsAt(topo: Topo, trace: seq<WireStep>, k: nat, x: Name, attrs: seq<Attr>, stamps: seq<nat>) {
    && k < |trace| && trace[k].WAtServer? && trace[k].srv == x && trace[k].stamps == stamps
    && Reached(topo, trace[..k]).Some?
    && var q := Reached(topo, trace[..k]).value.inbox(x);
    && q != [] && q[0].body.Down? && q[0].body.e.Query? && q[0].body.e.attrs == attrs
    && !topo.cfg.remote(x, attrs)
  }

  ghost predicate Reporter(topo: Topo, trace: seq<WireStep>, x: Name, attrs: seq<Attr>, stamps: seq<nat>) {
    exists k: nat :: ReportsAt(topo, trace, k, x, attrs, stamps)
  }

  /** Each server of the path asks the next one. */
  ghost predicate Path(cfg: Cfg, path: seq<Name>, attrs: seq<Attr>) {
    path != [] && forall i: nat :: i + 1 < |path| ==>
        cfg.remote(path[i], attrs) && path[i + 1] in cfg.members(path[i])
  }

  ghost predicate Along(topo: Topo, trace: seq<WireStep>, path: seq<Name>, m: Name, attrs: seq<Attr>, stamps: seq<nat>)
  {
    && Path(topo.cfg, path, attrs) && path[0] == m
    && Reporter(topo, trace, path[|path| - 1], attrs, stamps)
  }

  /** What the servers reported in a run, themselves or through those they ask. */
  ghost function Reported(topo: Topo, trace: seq<WireStep>): Reports {
    (m, attrs, stamps) => exists path :: Along(topo, trace, path, m, attrs, stamps)
  }

  lemma ReportedOn(topo: Topo, trace: seq<WireStep>)
    ensures PassedOn(topo.cfg, Reported(topo, trace))
  {
    var p := Reported(topo, trace);
    forall m, a, n, st | topo.cfg.remote(m, a) && n in topo.cfg.members(m) && p(n, a, st) ensures p(m, a, st) {
      var path :| Along(topo, trace, path, n, a, st);
      var longer := [m] + path;
      forall i: nat | i + 1 < |longer|
        ensures topo.cfg.remote(longer[i], a) && longer[i + 1] in topo.cfg.members(longer[i])
      {
        if 0 < i { assert longer[i] == path[i - 1] && longer[i + 1] == path[i - 1 + 1]; }
      }
      assert longer[|longer| - 1] == path[|path| - 1];
      assert Along(topo, trace, longer, m, a, st);
    }
  }

  lemma MoreReported(topo: Topo, trace: seq<WireStep>, n: nat, m: Name, attrs: seq<Attr>, stamps: seq<nat>)
    requires n <= |trace| && Reported(topo, trace[..n])(m, attrs, stamps)
    ensures Reported(topo, trace)(m, attrs, stamps)
  {
    var path :| Along(topo, trace[..n], path, m, attrs, stamps);
    var k: nat :| ReportsAt(topo, trace[..n], k, path[|path| - 1], attrs, stamps);
    assert trace[..n][..k] == trace[..k];
    assert ReportsAt(topo, trace, k, path[|path| - 1], attrs, stamps);
    assert Along(topo, trace, path, m, attrs, stamps);
  }

  /** The circuit step a network step performs reports the time stamps of the network step. */
  lemma StepReports(topo: Topo, trace: seq<WireStep>, st: Step)
    requires trace != [] && Reached(topo, trace[..|trace| - 1]).Some?
    requires var w, step := Reached(topo, trace[..|trace| - 1]).value, trace[|trace| - 1];
             && Sane(topo, w) && WEnabled(topo, w, step) && WAsserted(topo, w, step)
             && Performs(topo, w, step) == Some(st)
    ensures Reporting(topo.cfg, Abstract(topo, Reached(topo, trace[..|trace| - 1]).value), Reported(topo, trace), st)
  {
    var n := |trace| - 1;
    var w, step := Reached(topo, trace[..n]).value, trace[n];
    var s := Abstract(topo, w);
    if st.AtServer? && s.fwd(st.rtr, st.srv) != [] && s.fwd(st.rtr, st.srv)[0].Query?
       && !topo.cfg.remote(st.srv, s.fwd(st.rtr, st.srv)[0].attrs) {
      TakesHead(topo, w, step.srv, step.newId, step.stamps);
      var attrs := s.fwd(st.rtr, st.srv)[0].attrs;
      assert ReportsAt(topo, trace, n, st.srv, attrs, st.stamps);
      assert Along(topo, trace, [st.srv], st.srv, attrs, st.stamps);
    }
  }

  /** In every state of a run, every time stamp on its way was reported in the run. */
  lemma {:induction false} RunTimed(topo: Topo, trace: seq<WireStep>)
    requires Sound(topo) && Good(topo.cfg) && Possible(topo, trace) && Reached(topo, trace).Some?
    ensures Timed(Abstract(topo, Reached(topo, trace).value), Reported(topo, trace))
  {
    if trace == [] {
      NothingTimed(topo, Reported(topo, trace));
    } else {
      var n := |trace| - 1;
      var w := Reached(topo, trace[..n]).value;
      var s, t := Abstract(topo, w), Abstract(topo, Reached(topo, trace).value);
      var p, q := Reported(topo, trace[..n]), Reported(topo, trace);
      RunTimed(topo, trace[..n]);
      RunSane(topo, trace[..n]);
      StepSimulates(topo, w, trace[n]);
      ReportedOn(topo, trace);
      forall m, a, stamps | p(m, a, stamps) ensures q(m, a, stamps) { MoreReported(topo, trace, n, m, a, stamps); }
      MoreTimed(s, p, q);
      match Performs(topo, w, trace[n])
      case None => SameTimed(s, t, q);
      case Some(st) =>
        StepReports(topo, trace, st);
        StepTimed(topo.cfg, s, q, st);
        SameTimed(Apply(topo.cfg, s, st), t, q);
    }
  }

  lemma NothingTimed(topo: Topo, p: Reports)
    requires Sound(topo)
    ensures Timed(Abstract(topo, WInitial()), p)
  {
    forall r: Router, m ensures RepliesTimed(Abstract(topo, WInitial()), p, r, m) {
      EmptyUp(topo, WInitial(), topo.at(m), r, m);
    }
  }

  /**
    In every run the time stamps an answer has for a group are those that a
    server reported, in some step of the run, for the attributes asked for: one
    at the end of a path of servers asking servers that starts in the group.
   */
  lemma StampsWereReported(topo: Topo, trace: seq<WireStep>, c: Client, j: nat, g: nat)
    returns (path: seq<Name>, k: nat)
    requires Sound(topo) && Good(topo.cfg) && Possible(topo, trace) && Reached(topo, trace).Some?
    requires j < |Reached(topo, trace).value.side(c).done|
    requires g < |Reached(topo, trace).value.side(c).done[j].resp.stamps|
    ensures var w := Reached(topo, trace).value;
            var a := w.side(c).done[j];
            && a.id in w.side(c).asked
            && var want := w.side(c).asked[a.id];
            && want.comm in w.registry && g < |w.registry[want.comm].groups|
            && |a.resp.stamps| == |w.registry[want.comm].groups| && |a.resp.stamps[g]| == |want.attrs|
            && Path(topo.cfg, path, want.attrs) && path[0] in w.registry[want.comm].groups[g]
            && ReportsAt(topo, trace, k, path[|path| - 1], want.attrs, a.resp.stamps[g])
  {
    RunSane(topo, trace);
    RunTimed(topo, trace);
    var s := Abstract(topo, Reached(topo, trace).value);
    var a := s.side(c).done[j];
    assert SideOk(topo.cfg, s, c) && AnswerOk(topo.cfg, s, c, a);
    var want := s.side(c).asked[a.id];
    var names := s.registry[want.comm].groups[g];
    assert SideTimed(s, Reported(topo, trace), c) && AnswerTimed(s, Reported(topo, trace), c, a);
    assert FromGroup(Reported(topo, trace), names, want.attrs, a.resp.stamps[g]);
    var m :| m in names && Reported(topo, trace)(m, want.attrs, a.resp.stamps[g]);
    path :| Along(topo, trace, path, m, want.attrs, a.resp.stamps[g]);
    k :| ReportsAt(topo, trace, k, path[|path| - 1], want.attrs, a.resp.stamps[g]);
  }
}
