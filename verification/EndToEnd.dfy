/** Reads of an application, over whole runs of the network, against the configured tree. */
module EndToEnd {
  import opened Names
  import opened Gather
  import opened Circuits
  import opened CircuitInvariant
  import opened CircuitStamps
  import opened Network
  import opened Refinement
  import opened Simulation
  import opened Runs
  import opened Measure
  import opened Endings
  import opened AttrTree
  import opened Serving
  import opened AppRead

  /** The network runs the configuration: one server for each located object, owing what its tree and devices say. */
  ghost predicate Serves(topo: Topo, config: Config, hw: Hardware) {
    Sound(topo) && WellFormed(config) && topo.cfg == Deployment(config, hw, topo.cfg.home)
  }

  /** Every located object has devices or children but not both, and the same children throughout. */
  ghost predicate AllStart(config: Config) { forall x :: x in config.located && x != [] ==> Starts(config, x) }

  lemma AllStartIff(topo: Topo, config: Config, hw: Hardware)
    requires Serves(topo, config, hw)
    ensures AllOpen(topo.cfg) <==> AllStart(config)
  {
    forall x | x in config.located && x != [] ensures topo.cfg.opens(x) <==> Starts(config, x) { StartsIff(config, x); }
    assert forall x :: x in topo.cfg.started <==> x in config.located && x != [];
  }

  /** No run of fit reads loses a lookup or fails an assert, if and only if every located object starts. */
  lemma AllRunsGoThroughIff(topo: Topo, config: Config, hw: Hardware)
    requires Serves(topo, config, hw)
    ensures (forall trace :: Possible(topo, trace) && FitTrace(topo.cfg, trace) ==> Reached(topo, trace).Some?) <==>
        AllStart(config)
  {
    DeploymentGood(config, hw, topo.cfg.home);
    RunsGoThroughIff(topo);
    AllStartIff(topo, config, hw);
  }

  ghost predicate GroupFit(config: Config, groups: Groups, attrs: seq<Attr>)
    requires WellFormed(config)
  {
    forall g, j :: 0 <= g < |groups| && 0 <= j < |groups[g]| ==> Fit(config, groups[g][j], attrs)
  }

  lemma GroupsFitIs(topo: Topo, config: Config, hw: Hardware, groups: Groups, attrs: seq<Attr>)
    requires Serves(topo, config, hw)
    ensures GroupsFit(topo.cfg, groups, attrs) <==> GroupFit(config, groups, attrs)
  {
    forall g | 0 <= g < |groups|
      ensures MembersFit(topo.cfg, groups[g], attrs) <==> forall j :: 0 <= j < |groups[g]| ==>
          Fit(config, groups[g][j], attrs)
    {
      MembersAll(topo.cfg, groups[g], attrs);
    }
  }

  // ----- the value of an answer -----

  /**
    Answer number j of application c, in the state the run reaches, is to a request for these
    groups and attributes.
   */
  ghost predicate Answered(topo: Topo, trace: seq<WireStep>, c: nat, j: nat, groups: Groups, attrs: seq<Attr>) {
    && Possible(topo, trace) && Reached(topo, trace).Some?
    && var w := Reached(topo, trace).value;
    && j < |w.side(External(c)).done| && w.side(External(c)).done[j].id in w.side(External(c)).asked
    && var want := w.side(External(c)).asked[w.side(External(c)).done[j].id];
    && want.attrs == attrs && want.comm in w.registry && w.registry[want.comm].groups == groups
  }

  ghost function RowsOfAnswer(topo: Topo, trace: seq<WireStep>, c: nat, j: nat): seq<Row>
    requires Reached(topo, trace).Some? && j < |Reached(topo, trace).value.side(External(c)).done|
  {
    Reached(topo, trace).value.side(External(c)).done[j].resp.rows
  }

  /** An answer has, for each group and attribute, the sum of what the servers of the group owe; all of them are fit. */
  lemma AnswerIsOwed(topo: Topo, config: Config, hw: Hardware, trace: seq<WireStep>, c: nat, j: nat,
                     groups: Groups, attrs: seq<Attr>, g: nat, i: nat)
    requires Serves(topo, config, hw) && Answered(topo, trace, c, j, groups, attrs)
    ensures GroupFit(config, groups, attrs) && Reached(topo, trace).value.side(External(c)).done[j].resp.errs == []
    ensures |RowsOfAnswer(topo, trace, c, j)| == |groups|
    ensures g < |groups| && i < |attrs| ==>
              && |RowsOfAnswer(topo, trace, c, j)[g]| == |attrs|
              && RowsOfAnswer(topo, trace, c, j)[g][i] == SumAt(OwedRows(config, hw, attrs, groups[g]), i)
  {
    DeploymentGood(config, hw, topo.cfg.home);
    AnswerIsSum(topo, trace, External(c), j, g, i);
    GroupsFitIs(topo, config, hw, groups, attrs);
    if g < |groups| { assert RowsFor(topo.cfg, groups[g], attrs) == OwedRows(config, hw, attrs, groups[g]); }
  }

  /**
    In every run and every interleaving, the answer an application gets for an
    object is what a read of that object gives: the row for the group of servers
    its context asks is that of ReadAt.
   */
  lemma AnswerIsRead(topo: Topo, config: Config, hw: Hardware, trace: seq<WireStep>, c: nat, j: nat,
                     groups: Groups, attrs: seq<Attr>, g: nat, root: Name, o: Name)
    requires Serves(topo, config, hw) && Answered(topo, trace, c, j, groups, attrs) && g < |groups|
    requires Constructs(config, root, o) && SameComm(config, root, o, attrs)
        && InfoOf(config, root, o, attrs[0]).comm.Some?
    requires groups[g] == Listing(AskedFor(config, root, o, attrs))
    ensures |RowsOfAnswer(topo, trace, c, j)| == |groups|
    ensures ReadAt(config, hw, root, o, attrs) == Some(RowsOfAnswer(topo, trace, c, j)[g])
  {
    AnswerIsOwed(topo, config, hw, trace, c, j, groups, attrs, g, 0);
    MembersOfGroup(config, groups, attrs, g);
    assert forall n :: n in AskedFor(config, root, o, attrs) ==> n in groups[g];
    ReadsThere(config, hw, root, o, attrs);
    DistributedReadIff(config, hw, root, o, attrs);
    ReadValue(config, hw, root, o, attrs, 0);
    hide Serves, Answered, RowsOfAnswer, ReadAt, Constructs, SameComm, AskedFor, Fit, GroupFit, ReadsHere, InfoOf;
    var row := RowsOfAnswer(topo, trace, c, j)[g];
    forall i | 0 <= i < |attrs| ensures |row| == |attrs| && row[i] == ReadAt(config, hw, root, o, attrs).value[i] {
      AnswerIsOwed(topo, config, hw, trace, c, j, groups, attrs, g, i);
      ReadValue(config, hw, root, o, attrs, i);
    }
    assert row == ReadAt(config, hw, root, o, attrs).value;
  }

  lemma MembersOfGroup(config: Config, groups: Groups, attrs: seq<Attr>, g: nat)
    requires WellFormed(config) && GroupFit(config, groups, attrs) && g < |groups|
    ensures forall n :: n in groups[g] ==> Fit(config, n, attrs)
  {
    forall n | n in groups[g] ensures Fit(config, n, attrs) {
      var k :| 0 <= k < |groups[g]| && groups[g][k] == n;
    }
  }

  /** An object that is read through servers is valid, and has no devices here that could fail. */
  lemma ReadsThere(config: Config, hw: Hardware, root: Name, o: Name, attrs: seq<Attr>)
    requires WellFormed(config) && Constructs(config, root, o) && SameComm(config, root, o, attrs)
    requires InfoOf(config, root, o, attrs[0]).comm.Some?
    ensures ReadsHere(config, hw.ok, root, o, attrs)
  {
  }

  /**
    And it is the sum over every device configured below the object, each
    counted once, however the objects are spread over servers and the servers
    over routers, in every column in which no device that counts fails.
   */
  lemma ReadIsFlatSum(topo: Topo, config: Config, hw: Hardware, trace: seq<WireStep>, c: nat, j: nat,
                      groups: Groups, attrs: seq<Attr>, g: nat, i: nat, root: Name, o: Name)
    requires Serves(topo, config, hw) && Answered(topo, trace, c, j, groups, attrs) && g < |groups| && i < |attrs|
    requires Constructs(config, root, o) && SameComm(config, root, o, attrs)
        && InfoOf(config, root, o, attrs[0]).comm.Some?
    requires groups[g] == Listing(AskedFor(config, root, o, attrs))
    requires AllWhole(config, hw.ok, AskedFor(config, root, o, attrs), attrs, i)
    ensures |RowsOfAnswer(topo, trace, c, j)| == |groups| && |RowsOfAnswer(topo, trace, c, j)[g]| == |attrs|
    ensures RowsOfAnswer(topo, trace, c, j)[g][i] == FlatSum(config, hw.val, o, attrs[i])
  {
    AnswerIsOwed(topo, config, hw, trace, c, j, groups, attrs, g, i);
    AnswerIsRead(topo, config, hw, trace, c, j, groups, attrs, g, root, o);
    DistributedReadIff(config, hw, root, o, attrs);
    RowsFlat(config, hw, attrs, i, groups[g]);
    FlatOfRead(config, hw.val, root, o, attrs, i);
  }

  // ----- every read is answered -----

  ghost function ScaleOf(topo: Topo, config: Config): Scale {
    Scale(topo, (m: Name) => Height(config, m), config.depth + 1)
  }

  lemma DeploymentFair(topo: Topo, config: Config, hw: Hardware)
    requires Serves(topo, config, hw)
    ensures Fair(ScaleOf(topo, config))
  {
    DeploymentGood(config, hw, topo.cfg.home);
    var z := ScaleOf(topo, config);
    forall m, a, j | topo.cfg.remote(m, a) && 0 <= j < |topo.cfg.members(m)|
      ensures z.rank(topo.cfg.members(m)[j]) < z.rank(m)
    {
      DeploymentRanked(config, hw, topo.cfg.home, m, a, j);
    }
  }

  /**
    However a run goes on without new uses, it ends within a bound, and at rest no read of any
    context is outstanding.
   */
  lemma AllAnswered(topo: Topo, config: Config, hw: Hardware, trace: seq<WireStep>) returns (n: nat)
    requires Serves(topo, config, hw) && AllStart(config) && Possible(topo, trace) && FitTrace(topo.cfg, trace)
    ensures forall more :: NoUse(more) && Possible(topo, trace + more) ==>
              && |more| <= n && Reached(topo, trace + more).Some?
              && (AtRest(topo, Reached(topo, trace + more).value) ==> NobodyWaits(Reached(topo, trace + more).value))
  {
    DeploymentFair(topo, config, hw);
    AllStartIff(topo, config, hw);
    n := EveryReadAnswered(ScaleOf(topo, config), trace);
  }

  ghost predicate Remembers(w: Wire, v: Wire) { Keeps(Core(w, NoDown(), NoUp()), Core(v, NoDown(), NoUp())) }

  lemma KeepsIs(topo: Topo, w: Wire, v: Wire)
    requires Sound(topo)
    ensures Keeps(Abstract(topo, w), Abstract(topo, v)) <==> Remembers(w, v)
  {
  }

  lemma StepRemembers(topo: Topo, w: Wire, step: WireStep)
    requires Sane(topo, w) && WEnabled(topo, w, step) && WDefined(topo, w, step) && !step.WUse?
    ensures Remembers(w, WApply(topo, w, step))
  {
    var s, t := Abstract(topo, w), Abstract(topo, WApply(topo, w, step));
    StepSimulates(topo, w, step);
    KeepsIs(topo, w, WApply(topo, w, step));
    assert !(Performs(topo, w, step).Some? && Performs(topo, w, step).value.Use?);
    hide WApply, WEnabled, WDefined, Apply, Inv, Good, Sound, Enabled, Defined, Performs, Abstract, Remembers, Keeps,
         Same;
    if Performs(topo, w, step).Some? {
      var st := Performs(topo, w, step).value;
      StepKeeps(topo.cfg, s, st);
      KeepsSame(s, Apply(topo.cfg, s, st), t);
    } else {
      KeepsSame(s, s, t);
    }
  }

  lemma {:induction false} RunRemembers(topo: Topo, trace: seq<WireStep>, more: seq<WireStep>)
    requires Sound(topo) && Good(topo.cfg) && Possible(topo, trace) && Reached(topo, trace).Some?
        && Follows(topo, trace, more)
    ensures Remembers(Reached(topo, trace).value, Reached(topo, trace + more).value)
  {
    if more == [] {
      assert trace + more == trace;
    } else {
      var init := more[..|more| - 1];
      LastStep(topo, trace, more);
      RunRemembers(topo, trace, init);
      RunSane(topo, trace + init);
      StepRemembers(topo, Reached(topo, trace + init).value, more[|more| - 1]);
    }
  }

  /** A run in which the groups are asked for the attributes, once, and the answer arrives. */
  lemma AnswerArrives(topo: Topo, config: Config, hw: Hardware, groups: Groups,
                      attrs: seq<Attr>) returns (trace: seq<WireStep>, j: nat)
    requires Serves(topo, config, hw) && AllStart(config) && attrs != [] && Usable(groups)
        && GroupFit(config, groups, attrs)
    ensures Answered(topo, trace, 0, j, groups, attrs)
  {
    var z, use := ScaleOf(topo, config), WUse(0, 0, groups, attrs);
    DeploymentFair(topo, config, hw);
    AllStartIff(topo, config, hw);
    GroupsFitIs(topo, config, hw, groups, attrs);
    var first := FirstUse(topo, groups, attrs);
    EveryLookupMet(topo, first);
    var w := Reached(topo, first).value;
    var n := RunBound(z, first);
    var more := Completes(z, first, n);
    RunRemembers(topo, first, more);
    trace := first + more;
    var x := Reached(topo, trace).value.side(External(0));
    AnsweredExactlyOnce(topo, trace, External(0), 0);
    assert 0 in x.asked && x.asked[0] == Want(0, attrs);
    j := Counted(x.done, IsAnswer(0));
  }

  lemma FirstUse(topo: Topo, groups: Groups, attrs: seq<Attr>) returns (first: seq<WireStep>)
    requires Sound(topo) && Good(topo.cfg) && attrs != [] && Usable(groups) && GroupsFit(topo.cfg, groups, attrs)
    ensures Possible(topo, first) && FitTrace(topo.cfg, first) && Reached(topo, first).Some?
    ensures var w := Reached(topo, first).value;
            && 0 in w.side(External(0)).asked && w.side(External(0)).asked[0] == Want(0, attrs)
            && 0 in w.registry && w.registry[0].groups == groups
  {
    var use := WUse(0, 0, groups, attrs);
    assert Possible(topo, []) && Reached(topo, []) == Some(WInitial());
    AddStep(topo, [], use);
    first := [] + [use];
  }

  lemma {:induction false} Counted<T>(q: seq<T>, p: T -> bool) returns (j: nat)
    requires 0 < Count(q, p)
    ensures j < |q| && p(q[j])
  {
    if p(q[0]) {
      j := 0;
    } else {
      var k := Counted(q[1..], p);
      j := k + 1;
    }
  }

  /** A request is ever answered, in some run, if and only if every server it names is fit for it. */
  lemma AnsweredIffFit(topo: Topo, config: Config, hw: Hardware, groups: Groups, attrs: seq<Attr>)
    requires Serves(topo, config, hw) && AllStart(config) && attrs != [] && Usable(groups)
    ensures (exists trace, c: nat, j: nat :: Answered(topo, trace, c, j, groups, attrs)) <==>
        GroupFit(config, groups, attrs)
  {
    if GroupFit(config, groups, attrs) {
      var trace, j := AnswerArrives(topo, config, hw, groups, attrs);
    } else {
      forall trace, c: nat, j: nat ensures !Answered(topo, trace, c, j, groups, attrs) {
        if Answered(topo, trace, c, j, groups, attrs) {
          AnswerIsOwed(topo, config, hw, trace, c, j, groups, attrs, 0, 0);
        }
      }
    }
  }

  // ----- devices that fail -----

  /** The same network, with devices that say something else. */
  ghost function With(topo: Topo, config: Config, hw: Hardware): Topo
    requires WellFormed(config)
  {
    topo.(cfg := Deployment(config, hw, topo.cfg.home))
  }

  /** In every run, with whatever the devices say, entry i of row g is the sum over the devices below the group. */
  ghost predicate AnswersFlat(topo: Topo, config: Config, ok: (Device, Attr) -> bool, groups: Groups,
                              attrs: seq<Attr>, g: nat, i: nat)
    requires WellFormed(config) && g < |groups| && i < |attrs|
  {
    forall val: Reading, trace, c: nat, j: nat ::
      Answered(With(topo, config, Hardware(val, ok)), trace, c, j, groups, attrs) ==>
        var rows := RowsOfAnswer(With(topo, config, Hardware(val, ok)), trace, c, j);
        g < |rows| && i < |rows[g]| && rows[g][i] == SumNames(config, val, attrs[i], groups[g])
  }

  /**
    Answers are the flat sum in every run, whatever the devices say, if and only
    if no device that counts below the group fails: failures are lost in silence.
   */
  lemma AnswersFlatIff(topo: Topo, config: Config, ok: (Device, Attr) -> bool, groups: Groups, attrs: seq<Attr>,
                       g: nat, i: nat)
    requires Sound(topo) && WellFormed(config) && AllStart(config) && g < |groups| && i < |attrs|
    requires Usable(groups) && GroupFit(config, groups, attrs)
    ensures AnswersFlat(topo, config, ok, groups, attrs, g, i) <==> forall n :: n in groups[g] ==>
        Whole(config, ok, n, attrs, i)
  {
    MembersOfGroup(config, groups, attrs, g);
    RowsFlatIff(config, ok, attrs, i, groups[g]);
    if AlwaysFlat(config, ok, attrs, i, groups[g]) {
      forall val: Reading, trace, c: nat, j: nat | Answered(With(topo, config, Hardware(val, ok)), trace, c, j,
          groups, attrs)
        ensures var rows := RowsOfAnswer(With(topo, config, Hardware(val, ok)), trace, c, j);
                g < |rows| && i < |rows[g]| && rows[g][i] == SumNames(config, val, attrs[i], groups[g])
      {
        AnswerIsOwed(With(topo, config, Hardware(val, ok)), config, Hardware(val, ok), trace, c, j, groups, attrs, g,
            i);
      }
    } else {
      var val: Reading :| SumAt(OwedRows(config, Hardware(val, ok), attrs, groups[g]), i) != SumNames(config, val,
          attrs[i], groups[g]);
      var t := With(topo, config, Hardware(val, ok));
      var trace, j := AnswerArrives(t, config, Hardware(val, ok), groups, attrs);
      AnswerIsOwed(t, config, Hardware(val, ok), trace, 0, j, groups, attrs, g, i);
    }
  }
}
