/** Whole runs of the network, from the empty state, in every interleaving. */
module Runs {
  import opened Names
  import opened Gather
  import opened Circuits
  import opened CircuitInvariant
  import opened Network
  import opened Refinement
  import opened Simulation
  import opened CircuitFit

  /** The trace can be taken from the empty network. */
  ghost predicate Possible(topo: Topo, trace: seq<WireStep>)
    decreases |trace|, 0
  {
    trace == [] ||
    (var n := |trace| - 1;
     Possible(topo, trace[..n]) && Reached(topo, trace[..n]).Some?
     && WEnabled(topo, Reached(topo, trace[..n]).value, trace[n]))
  }

  /** The state after the trace; None when a lookup or assertion of the code fails on the way. */
  ghost function Reached(topo: Topo, trace: seq<WireStep>): Option<Wire>
    decreases |trace|, 1
  {
    if trace == [] then Some(WInitial())
    else
      var n := |trace| - 1;
      var before := Reached(topo, trace[..n]);
      if before.Some? && WDefined(topo, before.value,
          trace[n]) then Some(WApply(topo, before.value, trace[n])) else None
  }

  lemma InitialSane(topo: Topo)
    requires Sound(topo) && Good(topo.cfg)
    ensures Sane(topo, WInitial())
  {
    var w := WInitial();
    InitialInv(topo.cfg);
    forall r: Router, m ensures FwdOf(topo, w)(r, m) == [] { EmptyDown(topo, w, r, r, m); }
    forall r: Router, m ensures BackOf(topo, w)(r, m) == [] { EmptyUp(topo, w, topo.at(m), r, m); }
    SameInv(topo.cfg, Initial(), Abstract(topo, w));
  }

  lemma {:induction false} EmptyDown(topo: Topo, w: Wire, u: Router, r: Router, m: Name)
    requires Sound(topo) && w.inbox(m) == [] == w.pend(m)
    requires forall x: Router, y: Router :: w.link(x, y) == []
    ensures DownFrom(topo, w, u, r, m) == []
    decreases topo.dist(u, topo.at(m))
  {
    if u != topo.at(m) { EmptyDown(topo, w, topo.hop(u, topo.at(m)), r, m); }
  }

  lemma {:induction false} EmptyUp(topo: Topo, w: Wire, u: Router, r: Router, m: Name)
    requires Sound(topo)
    requires forall x: Router, y: Router :: w.link(x, y) == []
    ensures UpFrom(topo, w, u, r, m) == []
    decreases topo.dist(u, r)
  {
    if u != r { EmptyUp(topo, w, topo.hop(u, r), r, m); }
  }

  /** As long as no assert about the configuration fails, the invariant holds. */
  lemma {:induction false} RunSane(topo: Topo, trace: seq<WireStep>)
    requires Sound(topo) && Good(topo.cfg) && Possible(topo, trace) && Reached(topo, trace).Some?
    ensures Sane(topo, Reached(topo, trace).value)
  {
    if trace == [] {
      InitialSane(topo);
    } else {
      var n := |trace| - 1;
      RunSane(topo, trace[..n]);
      StepSimulates(topo, Reached(topo, trace[..n]).value, trace[n]);
    }
  }

  // ----- nothing is missing and no assert fails -----

  /** Applications ask only for what the servers asked, and those they ask, can answer. */
  ghost predicate FitTrace(cfg: Cfg, trace: seq<WireStep>) {
    forall k :: 0 <= k < |trace| && trace[k].WUse? ==> GroupsFit(cfg, trace[k].groups, trace[k].attrs)
  }

  /** Every server that is started gets through its startup. */
  ghost predicate AllOpen(cfg: Cfg) { forall m :: m in cfg.started ==> cfg.opens(m) }

  ghost predicate SaneAndFit(topo: Topo, w: Wire) {
    Sane(topo, w) && Fits(topo.cfg, Abstract(topo, w))
  }

  /** A step from a fit state finds everything, and no assert fails. */
  lemma FitStep(topo: Topo, w: Wire, step: WireStep)
    requires SaneAndFit(topo, w) && WEnabled(topo, w, step) && AllOpen(topo.cfg)
    requires step.WUse? ==> GroupsFit(topo.cfg, step.groups, step.attrs)
    ensures WDefined(topo, w, step) && SaneAndFit(topo, WApply(topo, w, step))
  {
    StepAsserted(topo, w, step);
    StepSimulates(topo, w, step);
    var s, t := Abstract(topo, w), Abstract(topo, WApply(topo, w, step));
    match Performs(topo, w, step)
    case None => NothingSent(topo.cfg, s, t);
    case Some(st) =>
      FitKeeps(topo.cfg, s, st);
      SameFits(topo.cfg, Apply(topo.cfg, s, st), t);
  }

  lemma SameFits(cfg: Cfg, s: Net, t: Net)
    requires Fits(cfg, s) && Same(s, t)
    ensures Fits(cfg, t)
  {
    NothingSent(cfg, s, t);
  }

  lemma StepAsserted(topo: Topo, w: Wire, step: WireStep)
    requires SaneAndFit(topo, w) && WEnabled(topo, w, step) && AllOpen(topo.cfg)
    ensures WAsserted(topo, w, step)
  {
    if step.WAtServer? {
      var m := step.srv;
      assert ServerQueuesOk(topo, w, m);
      var p := w.inbox(m)[0];
      var r, s := p.src.rtr, Abstract(topo, w);
      assert p.body.Down? && IsDown(p, r, m);
      InboxDown(topo, w, m, r, r, m);
      FitAsserted(topo.cfg, s, AtServer(r, m, step.newId, step.stamps));
    }
  }

  /**
    No run in which applications ask for fit reads ever meets a missing
    communicator, member, record or job, or fails an assert, be it at the start
    of a server or later.
   */
  lemma {:induction false} EveryLookupMet(topo: Topo, trace: seq<WireStep>)
    requires Sound(topo) && Good(topo.cfg) && AllOpen(topo.cfg) && Possible(topo, trace) && FitTrace(topo.cfg, trace)
    ensures Reached(topo, trace).Some? && SaneAndFit(topo, Reached(topo, trace).value)
  {
    if trace == [] {
      InitialSane(topo);
      NothingUnderWay(topo);
    } else {
      var n := |trace| - 1;
      EveryLookupMet(topo, trace[..n]);
      FitStep(topo, Reached(topo, trace[..n]).value, trace[n]);
    }
  }

  lemma NothingUnderWay(topo: Topo)
    requires Sound(topo)
    ensures Fits(topo.cfg, Abstract(topo, WInitial()))
  {
    forall r: Router, m ensures DownsFit(topo.cfg, Abstract(topo, WInitial()), r, m) {
      EmptyDown(topo, WInitial(), r, r, m);
    }
  }

  lemma ReachedNot(topo: Topo, trace: seq<WireStep>)
    requires trace != [] && Reached(topo, trace[..|trace| - 1]).Some?
    requires !WDefined(topo, Reached(topo, trace[..|trace| - 1]).value, trace[|trace| - 1])
    ensures Reached(topo, trace).None?
  {
  }

  /** All such runs go through if and only if every server that is started gets through its startup. */
  lemma RunsGoThroughIff(topo: Topo)
    requires Sound(topo) && Good(topo.cfg)
    ensures (forall trace :: Possible(topo, trace) && FitTrace(topo.cfg, trace) ==> Reached(topo, trace).Some?) <==>
        AllOpen(topo.cfg)
  {
    if AllOpen(topo.cfg) {
      forall trace | Possible(topo, trace) && FitTrace(topo.cfg, trace) ensures Reached(topo, trace).Some? {
        EveryLookupMet(topo, trace);
      }
    } else {
      var m :| m in topo.cfg.started && !topo.cfg.opens(m);
      var trace := [WRegister(m)];
      var n := |trace| - 1;
      assert trace[..n] == [] && Reached(topo, trace[..n]) == Some(WInitial());
      assert WEnabled(topo, WInitial(), trace[n]) && !WDefined(topo, WInitial(), trace[n]);
      ReachedNot(topo, trace);
      assert Possible(topo, trace) && FitTrace(topo.cfg, trace) && Reached(topo, trace).None?;
    }
  }

  // ----- exactly one answer, and the right one -----

  /**
    In every run, each read a context ever sent is either outstanding or was
    answered exactly once, and nothing else was answered.
   */
  lemma AnsweredExactlyOnce(topo: Topo, trace: seq<WireStep>, c: Client, k: nat)
    requires Sound(topo) && Good(topo.cfg) && Possible(topo, trace) && Reached(topo, trace).Some?
    ensures var x := Reached(topo, trace).value.side(c);
            && (k in x.asked <==> k < x.next)
            && Count(x.done, IsAnswer(k)) == if k in x.asked && k !in x.waiting then 1 else 0
  {
    RunSane(topo, trace);
    var s := Abstract(topo, Reached(topo, trace).value);
    assert SideOk(topo.cfg, s, c) && ClientBalance(topo.cfg, s, c, k);
    if k !in s.side(c).asked { assert Count(s.side(c).done, IsAnswer(k)) == 0; }
  }

  /**
    Every answer a context processed has, for each group it asked for, the sum of what the members
    owe, and no error; all members were fit.
   */
  lemma AnswerIsSum(topo: Topo, trace: seq<WireStep>, c: Client, j: nat, g: nat, i: nat)
    requires Sound(topo) && Good(topo.cfg) && Possible(topo, trace)
    requires Reached(topo, trace).Some? && j < |Reached(topo, trace).value.side(c).done|
    ensures var w := Reached(topo, trace).value;
            var a := w.side(c).done[j];
            && a.id in w.side(c).asked && a.resp.errs == []
            && var want := w.side(c).asked[a.id];
            && want.comm in w.registry && w.registry[want.comm].owner == c
            && var groups := w.registry[want.comm].groups;
            && |a.resp.rows| == |groups| && GroupsFit(topo.cfg, groups, want.attrs)
            && (g < |groups| && i < |want.attrs| ==>
                  |a.resp.rows[g]| == |want.attrs|
                  && (forall n :: 0 <= n < |groups[g]| ==> i < |RowsFor(topo.cfg, groups[g], want.attrs)[n]|)
                  && a.resp.rows[g][i] == SumAt(RowsFor(topo.cfg, groups[g], want.attrs), i))
  {
    RunSane(topo, trace);
    var s := Abstract(topo, Reached(topo, trace).value);
    assert SideOk(topo.cfg, s, c);
    var a := s.side(c).done[j];
    assert AnswerOk(topo.cfg, s, c, a);
    var want := s.side(c).asked[a.id];
    var groups := s.registry[want.comm].groups;
    if g < |groups| && i < |want.attrs| {
      ColumnSumIsSum(|want.attrs|, RowsFor(topo.cfg, groups[g], want.attrs), i);
    }
  }

  /** m_finiMap of a server holds exactly the jobs not yet answered; every other one was answered once. */
  lemma ServerAnswersOnce(topo: Topo, trace: seq<WireStep>, m: Name, k: nat)
    requires Sound(topo) && Good(topo.cfg) && Possible(topo, trace) && Reached(topo, trace).Some?
    ensures var w := Reached(topo, trace).value;
            && w.srv(m).fini.Keys == w.side(Daemon(m)).waiting
            && (k in w.side(Daemon(m)).asked ==>
                  Count(w.side(Daemon(m)).done, IsAnswer(k)) == if k in w.srv(m).fini then 0 else 1)
  {
    AnsweredExactlyOnce(topo, trace, Daemon(m), k);
    RunSane(topo, trace);
    assert DaemonOk(topo.cfg, Abstract(topo, Reached(topo, trace).value), m);
  }

  /** Events wait in a pending queue only as long as the server has not registered, and only events for that server. */
  lemma PendingOnlyBefore(topo: Topo, trace: seq<WireStep>, m: Name)
    requires Sound(topo) && Good(topo.cfg) && Possible(topo, trace) && Reached(topo, trace).Some?
    ensures var w := Reached(topo, trace).value;
            && (w.up(m) ==> w.pend(m) == []) && (!w.up(m) ==> w.inbox(m) == [])
            && (forall k :: 0 <= k < |w.pend(m)| ==>
                  w.pend(m)[k].dest == ServerApp(topo.at(m), m) && w.pend(m)[k].body.Down?)
  {
    RunSane(topo, trace);
    assert ServerQueuesOk(topo, Reached(topo, trace).value, m);
  }

  /** A record counts as pending exactly its groups that still lack replies, and no group has too many. */
  lemma PendingIsIncomplete(topo: Topo, trace: seq<WireStep>, r: Router, i: nat)
    requires Sound(topo) && Good(topo.cfg) && Possible(topo, trace)
    requires Reached(topo, trace).Some? && i in Reached(topo, trace).value.rtr(r).infos
    ensures var rec := Reached(topo, trace).value.rtr(r).infos[i];
            && |rec.info.respQ| == |rec.info.sizes| == |rec.groups| && 0 < rec.info.pending == Incomplete(rec.info)
            && (forall g :: 0 <= g < |rec.groups| ==> |rec.info.respQ[g]| <= |rec.groups[g]|)
  {
    RunSane(topo, trace);
    var w := Reached(topo, trace).value;
    assert RecordOk(topo.cfg, Abstract(topo, w), r, i);
    var rec := w.rtr(r).infos[i];
    forall g | 0 <= g < |rec.groups| ensures |rec.info.respQ[g]| <= |rec.groups[g]| {
      assert GroupRecOk(topo.cfg, rec, g) && GroupOk(rec.info, g);
    }
  }

  // ----- first in, first out -----

  /** How one circuit step changes the queue from router r to server m. */
  lemma CircuitFifo(cfg: Cfg, s: Net, step: Step, r: Router, m: Name)
    requires Defined(cfg, s, step)
    ensures var before, after := s.fwd(r, m), Apply(cfg, s, step).fwd(r, m);
            if step.AtRouter? && cfg.home(step.client) == r then before <= after
            else if step.AtServer? && step.srv == m && step.rtr == r then before != [] && after == before[1..]
            else after == before
  {
  }

  /**
    What is between router r and server m changes in two ways only: the router's
    own fan-out appends to it, and the server takes its first event. Links,
    forwarding routers, pending queues and registration lose and reorder nothing.
   */
  lemma LosslessFifo(topo: Topo, w: Wire, step: WireStep, r: Router, m: Name)
    requires Sane(topo, w) && WEnabled(topo, w, step) && WDefined(topo, w, step)
    ensures var before, after := DownFrom(topo, w, r, r, m), DownFrom(topo, WApply(topo, w, step), r, r, m);
            if step.WAtRouter? && topo.cfg.home(step.client) == r then before <= after
            else if step.WAtServer? && step.srv == m && w.inbox(m)[0].src == RouterApp(r) then
              before != [] && w.inbox(m)[0].body == Down(before[0]) && after == before[1..]
            else after == before
  {
    StepSimulates(topo, w, step);
    var s := Abstract(topo, w);
    var v := WApply(topo, w, step);
    assert s.fwd(r, m) == DownFrom(topo, w, r, r, m);
    assert FwdOf(topo, v)(r, m) == DownFrom(topo, v, r, r, m);
    if Performs(topo, w, step).Some? { CircuitFifo(topo.cfg, s, Performs(topo, w, step).value, r, m); }
    if step.WAtServer? {
      assert ServerQueuesOk(topo, w, step.srv);
      InboxDown(topo, w, step.srv, r, r, m);
    }
  }

  // ----- nothing gets stuck -----

  /** Servers read through servers of smaller rank only. */
  ghost predicate Ranked(cfg: Cfg, rank: Name -> nat) {
    forall m, a, j :: cfg.remote(m, a) && 0 <= j < |cfg.members(m)| ==> rank(cfg.members(m)[j]) < rank(m)
  }

  ghost predicate Quiet(s: Net) {
    && (forall c :: s.side(c).up == [] && s.side(c).down == [])
    && (forall r: Router, m :: s.fwd(r, m) == [] && s.back(r, m) == [])
  }

  ghost function Depth(rank: Name -> nat, c: Client): nat {
    if c.Daemon? then rank(c.name) else 0
  }

  /** With all queues empty no read can be outstanding. */
  lemma {:induction false} QuietMeansAnswered(cfg: Cfg, s: Net, rank: Name -> nat, c: Client, k: nat)
    requires Good(cfg) && Inv(cfg, s) && Ranked(cfg, rank) && Quiet(s)
    requires k in s.side(c).waiting
    ensures false
    decreases if c.External? then 1 else 0, Depth(rank, c)
  {
    assert SideOk(cfg, s, c) && ClientBalance(cfg, s, c, k);
    var r := cfg.home(c);
    var i :| i in RecordsFor(s.rtr(r).infos, c, k);
    assert RecordOk(cfg, s, r, i);
    var rec := s.rtr(r).infos[i];
    var g, m := MissingReply(cfg, rec);
    assert Balance(s, r, i, g, m);
    var key :| key in JobsFor(s.srv(m).fini, r, i, g);
    assert DaemonOk(cfg, s, m);
    if c.Daemon? {
      assert DaemonOk(cfg, s, c.name);
      assert JobOk(cfg, s, c.name, k);
      assert TableOk(cfg, s, r);
      assert rec.groups == [cfg.members(c.name)];
      assert m in multiset(cfg.members(c.name));
      var j :| 0 <= j < |cfg.members(c.name)| && cfg.members(c.name)[j] == m;
      assert cfg.remote(c.name, s.srv(c.name).fini[k].attrs);
    }
    QuietMeansAnswered(cfg, s, rank, Daemon(m), key);
  }

  /** A pending record lacks the reply of some member. */
  lemma MissingReply(cfg: Cfg, rec: Record) returns (g: nat, m: Name)
    requires Good(cfg) && RecordShape(cfg, rec) && 0 < rec.info.pending
    ensures g < |rec.groups| && multiset(rec.from[g])[m] < multiset(rec.groups[g])[m]
  {
    forall h | 0 <= h < |rec.info.respQ| 
      ensures |rec.info.respQ[h]| <= rec.info.sizes[h] && 0 < rec.info.sizes[h]
    {
      assert GroupOk(rec.info, h);
      assert GroupRecOk(cfg, rec, h);
    }
    IncompleteZero(rec.info.respQ, rec.info.sizes, |rec.info.sizes|);
    var h :| 0 <= h < |rec.info.sizes| && |rec.info.respQ[h]| < rec.info.sizes[h];
    g := h;
    assert GroupRecOk(cfg, rec, g);
    var a, b := multiset(rec.from[g]), multiset(rec.groups[g]);
    assert |a| == |rec.from[g]| && |b| == |rec.groups[g]|;
    m := SmallerSomewhere(a, b);
  }

  lemma SmallerSomewhere<T>(a: multiset<T>, b: multiset<T>) returns (x: T)
    requires |a| < |b|
    ensures a[x] < b[x]
  {
    if forall y :: b[y] <= a[y] { SubMultisetSize(b, a); }
    x :| a[x] < b[x];
  }

  lemma SubMultisetSize<T>(a: multiset<T>, b: multiset<T>)
    requires forall y :: a[y] <= b[y]
    ensures |a| <= |b|
  {
    assert b == a + (b - a);
  }

  lemma FreshId(registry: map<CommId, Comm>) returns (x: CommId)
    ensures x !in registry
  {
    x := Above(registry.Keys);
  }

  lemma {:induction false} Above(s: set<nat>) returns (x: nat)
    ensures forall y :: y in s ==> y < x
    decreases |s|
  {
    if s == {} {
      x := 0;
    } else {
      var y :| y in s;
      var z := Above(s - {y});
      x := if z > y then z else y + 1;
      forall v | v in s ensures v < x { assert v == y || v in s - {y}; }
    }
  }

  lemma {:induction false} DownReaches(topo: Topo, w: Wire, u: Router, r: Router, m: Name)
    requires Sound(topo)
    ensures |DownEnd(w, r, m)| <= |DownFrom(topo, w, u, r, m)|
    decreases topo.dist(u, topo.at(m))
  {
    if u != topo.at(m) { DownReaches(topo, w, topo.hop(u, topo.at(m)), r, m); }
  }

  /** Events wait only for servers that were started and have yet to register. */
  lemma PendingStarted(topo: Topo, w: Wire, m: Name)
    requires SaneAndFit(topo, w) && w.pend(m) != []
    ensures m in topo.cfg.started && !w.up(m)
  {
    assert ServerQueuesOk(topo, w, m);
    var r := w.pend(m)[0].src.rtr;
    assert IsDown(w.pend(m)[0], r, m);
    assert DownsOf(w.pend(m), r, m) != [];
    DownReaches(topo, w, r, r, m);
    var s := Abstract(topo, w);
    assert s.fwd(r, m) == DownFrom(topo, w, r, r, m);
    assert DownsFit(topo.cfg, s, r, m) && DownOk(s, r, m);
    assert DownFit(topo.cfg, m, s.fwd(r, m)[0]);
  }

  /** A step that takes something from a queue; registering counts when events wait for the server. */
  ghost predicate Moves(topo: Topo, w: Wire, step: WireStep) {
    WEnabled(topo, w, step) && !step.WUse? && (step.WRegister? ==> w.pend(step.srv) != [])
  }

  /**
    No run deadlocks: while any read is outstanding, of an application or of a
    server, some event can be moved on, and moving it fails no assert.
   */
  lemma Progress(topo: Topo, w: Wire, rank: Name -> nat, c: Client, k: nat) returns (step: WireStep)
    requires SaneAndFit(topo, w) && AllOpen(topo.cfg) && Ranked(topo.cfg, rank) && k in w.side(c).waiting
    ensures Moves(topo, w, step) && WDefined(topo, w, step)
  {
    step := Move(topo, w, rank, c, k);
    FitStep(topo, w, step);
  }

  lemma Move(topo: Topo, w: Wire, rank: Name -> nat, c: Client, k: nat) returns (step: WireStep)
    requires SaneAndFit(topo, w) && Ranked(topo.cfg, rank) && k in w.side(c).waiting
    ensures Moves(topo, w, step)
  {
    if d :| w.side(d).up != [] { return WAtRouter(d); }
    if d :| w.side(d).down != [] { return WDeliver(d); }
    if m :| w.pend(m) != [] { PendingStarted(topo, w, m); return WRegister(m); }
    if m :| w.outbox(m) != [] { return WFromServer(m); }
    if x: Router, y: Router :| w.link(x, y) != [] { return WHop(x, y); }
    if m :| w.inbox(m) != [] {
      var newId := FreshId(w.registry);
      var e := w.inbox(m)[0].body;
      return WAtServer(m, newId, if e.Down? && e.e.Query? then seq(|e.e.attrs|, _ => 0) else []);
    }
    var s := Abstract(topo, w);
    forall r: Router, m ensures s.fwd(r, m) == [] && s.back(r, m) == [] {
      EmptyDown(topo, w, r, r, m);
      EmptyUp(topo, w, topo.at(m), r, m);
    }
    QuietMeansAnswered(topo.cfg, s, rank, c, k);
  }
}
