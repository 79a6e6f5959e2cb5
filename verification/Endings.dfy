/** Runs without new uses end, and when nothing can be moved any more every read has its answer. */
module Endings {
  import opened Names
  import opened Circuits
  import opened Network
  import opened Simulation
  import opened Runs
  import opened Weights
  import opened Measure

  /** Every step but a new use lowers the bound. */
  lemma StepLowers(z: Scale, w: Wire, step: WireStep, n: nat) returns (k: nat)
    requires Fair(z) && Sane(z.topo, w) && WEnabled(z.topo, w, step) && WDefined(z.topo, w, step)
    requires !step.WUse? && Bound(z, w, n)
    ensures k < n && Bound(z, WApply(z.topo, w, step), k)
  {
    var l: nat :| Weighs(Load(z, w), l) && n == l + |Idle(z, w)|;
    var v := WApply(z.topo, w, step);
    var a := l;
    match step {
      case WAtRouter(c) => a := RouterLoad(z, w, c, l);
      case WAtServer(m, newId, stamps) => a := ServerLoad(z, w, m, newId, stamps, l);
      case WFromServer(m) => a := FromServerLoad(z, w, m, l);
      case WHop(x, y) => a := HopLoad(z, w, x, y, l);
      case WRegister(m) => RegisterLoad(z, w, m, l);
      case WDeliver(c) => a := DeliverLoad(z, w, c, l);
    }
    k := a + |Idle(z, v)|;
  }

  lemma InitialBound(z: Scale) returns (n: nat)
    ensures Bound(z, WInitial(), n)
  {
    NothingWeighs(Load(z, WInitial()));
    n := |Idle(z, WInitial())|;
    assert Weighs(Load(z, WInitial()), 0) && n == 0 + |Idle(z, WInitial())|;
  }

  /** Every state a run reaches has a bound. */
  lemma {:induction false} RunBound(z: Scale, trace: seq<WireStep>) returns (n: nat)
    requires Fair(z) && Possible(z.topo, trace) && Reached(z.topo, trace).Some?
    ensures Bound(z, Reached(z.topo, trace).value, n)
  {
    if trace == [] {
      n := InitialBound(z);
    } else {
      var before, step := trace[..|trace| - 1], trace[|trace| - 1];
      RunSane(z.topo, before);
      var w := Reached(z.topo, before).value;
      var b := RunBound(z, before);
      if step.WUse? {
        var l: nat :| Weighs(Load(z, w), l) && b == l + |Idle(z, w)|;
        var a := UseLoad(z, w, External(step.c), step.comm, step.groups, step.attrs, l);
        n := a + |Idle(z, WApply(z.topo, w, step))|;
      } else {
        n := StepLowers(z, w, step, b);
      }
    }
  }

  // ----- continuing a run -----

  ghost predicate NoUse(more: seq<WireStep>) { forall k :: 0 <= k < |more| ==> !more[k].WUse? }

  /** The steps can follow the run, and fail no assert; none is a new use. */
  ghost predicate Follows(topo: Topo, trace: seq<WireStep>, more: seq<WireStep>) {
    NoUse(more) && Possible(topo, trace + more) && Reached(topo, trace + more).Some?
  }

  /** The last step of a run that was taken. */
  lemma LastStep(topo: Topo, trace: seq<WireStep>, more: seq<WireStep>)
    requires more != [] && Follows(topo, trace, more)
    ensures var init, step := more[..|more| - 1], more[|more| - 1];
            && Follows(topo, trace, init) && !step.WUse?
            && WEnabled(topo, Reached(topo, trace + init).value, step)
            && WDefined(topo, Reached(topo, trace + init).value, step)
            && Reached(topo, trace + more).value == WApply(topo, Reached(topo, trace + init).value, step)
  {
    var init, step, whole := more[..|more| - 1], more[|more| - 1], trace + more;
    assert whole[..|whole| - 1] == trace + init && whole[|whole| - 1] == step;
  }

  /** However a run goes on without new uses, it is over after as many steps as the bound says. */
  lemma {:induction false} EndsWithin(z: Scale, trace: seq<WireStep>, n: nat, more: seq<WireStep>) returns (k: nat)
    requires Fair(z) && Possible(z.topo, trace) && Reached(z.topo, trace).Some?
    requires Bound(z, Reached(z.topo, trace).value, n) && Follows(z.topo, trace, more)
    ensures |more| + k <= n && Bound(z, Reached(z.topo, trace + more).value, k)
  {
    if more == [] {
      assert trace + more == trace;
      k := n;
    } else {
      hide Possible, Reached, Bound, WEnabled, WDefined, Sane, Good, Ranked;
      var init, step := more[..|more| - 1], more[|more| - 1];
      LastStep(z.topo, trace, more);
      var b := EndsWithin(z, trace, n, init);
      RunSane(z.topo, trace + init);
      k := StepLowers(z, Reached(z.topo, trace + init).value, step, b);
    }
  }

  ghost predicate NobodyWaits(w: Wire) { forall c :: w.side(c).waiting == {} }

  /** Nothing is left that could be moved on. */
  ghost predicate AtRest(topo: Topo, w: Wire) { forall step :: !Moves(topo, w, step) }

  lemma AddStep(topo: Topo, trace: seq<WireStep>, step: WireStep)
    requires Possible(topo, trace) && Reached(topo, trace).Some?
    requires WEnabled(topo, Reached(topo, trace).value, step) && WDefined(topo, Reached(topo, trace).value, step)
    ensures Possible(topo, trace + [step])
    ensures Reached(topo, trace + [step]) == Some(WApply(topo, Reached(topo, trace).value, step))
  {
    assert (trace + [step])[..|trace|] == trace;
  }

  /** Applications ask only what can be answered, and the servers start. */
  ghost predicate Proper(z: Scale, trace: seq<WireStep>) {
    && Fair(z) && AllOpen(z.topo.cfg) && Possible(z.topo, trace) && FitTrace(z.topo.cfg, trace)
  }

  lemma FollowsProper(z: Scale, trace: seq<WireStep>, more: seq<WireStep>)
    requires Proper(z, trace) && NoUse(more) && Possible(z.topo, trace + more)
    ensures Proper(z, trace + more) && Follows(z.topo, trace, more)
    ensures SaneAndFit(z.topo, Reached(z.topo, trace + more).value)
  {
    forall k | 0 <= k < |trace + more| && (trace + more)[k].WUse?
      ensures GroupsFit(z.topo.cfg, (trace + more)[k].groups, (trace + more)[k].attrs)
    {
      assert k < |trace| && (trace + more)[k] == trace[k];
    }
    EveryLookupMet(z.topo, trace + more);
  }

  /**
    Exactly one answer, the second half: however a run goes on without new uses,
    it stops after a bounded number of steps, and when nothing can be moved any
    more nobody waits: every read of every application and server was answered.
   */
  lemma EveryReadAnswered(z: Scale, trace: seq<WireStep>) returns (n: nat)
    requires Proper(z, trace)
    ensures forall more :: NoUse(more) && Possible(z.topo, trace + more) ==>
              && |more| <= n && Reached(z.topo, trace + more).Some?
              && (AtRest(z.topo, Reached(z.topo, trace + more).value) ==>
                    NobodyWaits(Reached(z.topo, trace + more).value))
  {
    EveryLookupMet(z.topo, trace);
    n := RunBound(z, trace);
    forall more | NoUse(more) && Possible(z.topo, trace + more)
      ensures |more| <= n && Reached(z.topo, trace + more).Some?
      ensures AtRest(z.topo, Reached(z.topo, trace + more).value) ==> NobodyWaits(Reached(z.topo, trace + more).value)
    {
      FollowsProper(z, trace, more);
      var k := EndsWithin(z, trace, n, more);
      var w := Reached(z.topo, trace + more).value;
      if AtRest(z.topo, w) && !NobodyWaits(w) {
        var c, id :| id in w.side(c).waiting;
        var step := Progress(z.topo, w, z.rank, c, id);
      }
    }
  }

  lemma SomeMove(z: Scale, w: Wire) returns (step: WireStep)
    requires Fair(z) && AllOpen(z.topo.cfg) && SaneAndFit(z.topo, w) && !NobodyWaits(w)
    ensures !step.WUse? && WEnabled(z.topo, w, step) && WDefined(z.topo, w, step) && Sane(z.topo, w)
  {
    var c, id :| id in w.side(c).waiting;
    step := Progress(z.topo, w, z.rank, c, id);
  }

  lemma MoveOn(z: Scale, trace: seq<WireStep>, n: nat) returns (step: WireStep, k: nat)
    requires Proper(z, trace) && Reached(z.topo, trace).Some? && Bound(z, Reached(z.topo, trace).value, n)
    requires !NobodyWaits(Reached(z.topo, trace).value)
    ensures Proper(z, trace + [step]) && !step.WUse? && Reached(z.topo, trace + [step]).Some?
    ensures k < n && Bound(z, Reached(z.topo, trace + [step]).value, k)
  {
    EveryLookupMet(z.topo, trace);
    var w := Reached(z.topo, trace).value;
    step := SomeMove(z, w);
    AddStep(z.topo, trace, step);
    k := StepLowers(z, w, step, n);
    FollowsProper(z, trace, [step]);
  }

  /** And there is such an end: the run can be continued, without new uses, until nobody waits. */
  lemma {:induction false} Completes(z: Scale, trace: seq<WireStep>, n: nat) returns (more: seq<WireStep>)
    requires Proper(z, trace) && Reached(z.topo, trace).Some? && Bound(z, Reached(z.topo, trace).value, n)
    ensures Follows(z.topo, trace, more) && Proper(z, trace + more) && NobodyWaits(Reached(z.topo, trace + more).value)
    decreases n
  {
    hide Proper, Bound, Possible, Reached, NobodyWaits;
    assert trace + [] == trace;
    if NobodyWaits(Reached(z.topo, trace).value) {
      IsPossible(z, trace);
      return [];
    }
    var step, k := MoveOn(z, trace, n);
    var rest := Completes(z, trace + [step], k);
    more := [step] + rest;
    assert trace + [step] + rest == trace + more;
  }

  lemma IsPossible(z: Scale, trace: seq<WireStep>)
    requires Proper(z, trace)
    ensures Possible(z.topo, trace)
  {
  }
}
