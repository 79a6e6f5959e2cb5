/** A router takes the next event of a client: it registers a communicator or fans a request out. */
module CircuitRouter {
  import opened Names
  import opened Gather
  import opened Circuits
  import opened CircuitInvariant
  import opened CircuitUse

  lemma {:induction false} SlotsCount(groups: Groups, m: Name, n: nat, g: nat)
    requires n <= |groups|
    ensures multiset(Slots(groups, m, n))[g] == if g < n then multiset(groups[g])[m] else 0
  {
    if n != 0 {
      SlotsCount(groups, m, n - 1, g);
      RepeatCount(multiset(groups[n - 1])[m], n - 1, g);
    }
  }

  lemma {:induction false} RepeatCount(n: nat, x: nat, y: nat)
    ensures multiset(seq(n, _ => x))[y] == if x == y then n else 0
  {
    if n != 0 {
      RepeatCount(n - 1, x, y);
      assert seq(n, _ => x) == seq(n - 1, _ => x) + [x];
    }
  }

  lemma SlotsMember(groups: Groups, m: Name, k: nat)
    requires k < |Slots(groups, m, |groups|)|
    ensures Slots(groups, m, |groups|)[k] < |groups| && m in groups[Slots(groups, m, |groups|)[k]]
  {
    var g := Slots(groups, m, |groups|)[k];
    SlotsCount(groups, m, |groups|, g);
    assert g in multiset(Slots(groups, m, |groups|));
  }

  lemma MemberSlot(groups: Groups, g: nat, j: nat)
    requires g < |groups| && j < |groups[g]|
    ensures Slots(groups, groups[g][j], |groups|) != []
  {
    SlotsCount(groups, groups[g][j], |groups|, g);
    assert groups[g][j] in multiset(groups[g]);
  }

  /** Counting the queries of one group among those sent to m is counting m in the group. */
  lemma QueriesCount(comm: CommId, id: nat, attrs: seq<Attr>, groups: Groups, m: Name, g: nat)
    requires g < |groups|
    ensures Count(Queries(comm, id, attrs, groups, m), IsQuery(id, g)) == multiset(groups[g])[m]
  {
    SlotsCount(groups, m, |groups|, g);
    QueriesOfSlots(comm, id, attrs, Slots(groups, m, |groups|), g);
  }

  lemma {:induction false} QueriesOfSlots(comm: CommId, id: nat, attrs: seq<Attr>, slots: seq<nat>, g: nat)
    ensures Count(seq(|slots|, k requires 0 <= k < |slots| => Query(comm, id, slots[k], attrs)), IsQuery(id, g))
         == multiset(slots)[g]
  {
    var q := seq(|slots|, k requires 0 <= k < |slots| => Query(comm, id, slots[k], attrs));
    if slots != [] {
      QueriesOfSlots(comm, id, attrs, slots[1..], g);
      assert q[1..] == seq(|slots[1..]|, k requires 0 <= k < |slots[1..]| => Query(comm, id, slots[1..][k], attrs));
      assert slots == [slots[0]] + slots[1..];
    }
  }

  lemma {:induction false} OrderedDownGrow(q: seq<DownEvent>, a: set<CommId>, b: set<CommId>)
    requires a <= b && OrderedDown(q, a)
    ensures OrderedDown(q, b)
  {
    if q != [] {
      OrderedDownGrow(q[1..], if q[0].Open? then a + {q[0].comm} else a, if q[0].Open? then b + {q[0].comm} else b);
    }
  }

  lemma {:induction false} OrderedDownAppend(q: seq<DownEvent>, known: set<CommId>, more: seq<DownEvent>)
    requires OrderedDown(q, known)
    requires forall k :: 0 <= k < |more| && more[k].Query? ==> more[k].comm in known || OpensComm(q, more[k].comm)
    ensures OrderedDown(q + more, known)
  {
    if q == [] {
      assert q + more == more;
      OrderedDownAll(more, known);
    } else {
      assert (q + more)[1..] == q[1..] + more;
      var rest := if q[0].Open? then known + {q[0].comm} else known;
      forall k | 0 <= k < |more| && more[k].Query? ensures more[k].comm in rest || OpensComm(q[1..], more[k].comm) {
        if more[k].comm !in rest {
          var j :| 0 <= j < |q| && q[j].Open? && q[j].comm == more[k].comm;
          assert j != 0 && q[1..][j - 1] == q[j];
        }
      }
      OrderedDownAppend(q[1..], rest, more);
    }
  }

  lemma {:induction false} OrderedDownAll(q: seq<DownEvent>, known: set<CommId>)
    requires forall k :: 0 <= k < |q| && q[k].Query? ==> q[k].comm in known
    ensures OrderedDown(q, known)
  {
    if q != [] {
      OrderedDownAll(q[1..], if q[0].Open? then known + {q[0].comm} else known);
    }
  }

  lemma OpensKept(q: seq<DownEvent>, more: seq<DownEvent>, comm: CommId)
    requires OpensComm(q, comm)
    ensures OpensComm(q + more, comm)
  {
    var k :| 0 <= k < |q| && q[k].Open? && q[k].comm == comm;
    assert (q + more)[k] == q[k];
  }

  // ----- the clauses about contexts -----

  ghost predicate Serving(cfg: Cfg, s: Net, c: Client)
    requires Good(cfg)
  {
    Inv(cfg, s) && s.side(c).up != []
  }

  lemma RouterUp(cfg: Cfg, s: Net, c: Client, d: Client)
    requires Good(cfg) && Serving(cfg, s, c) && Defined(cfg, s, AtRouter(c))
    ensures UpOk(cfg, ApplyAtRouter(cfg, s, c), d)
  {
    var t := ApplyAtRouter(cfg, s, c);
    var q, p := s.side(d).up, t.side(d).up;
    assert UpOk(cfg, s, d) && UpOk(cfg, s, c);
    var known, after := s.rtr(cfg.home(d)).comms.Keys, t.rtr(cfg.home(d)).comms.Keys;
    if d == c {
      assert p == q[1..];
      assert after == if q[0].Create? then known + {(c, q[0].comm)} else known;
      forall k | 0 <= k < |p| ensures UpEventOk(t, d, p[k]) { assert p[k] == q[k + 1] && UpEventOk(s, d, q[k + 1]); }
      forall x ensures CommKnown(cfg, t, d, x) {
        assert CommKnown(cfg, s, d, x);
        if Creates(q, x) {
          var k :| 0 <= k < |q| && q[k].Create? && q[k].comm == x;
          if 0 < k { assert p[k - 1] == q[k]; }
        }
      }
    } else {
      OrderedAgree(q, d, known, after);
      forall k | 0 <= k < |p| ensures UpEventOk(t, d, p[k]) { assert UpEventOk(s, d, q[k]); }
      forall x ensures CommKnown(cfg, t, d, x) { assert CommKnown(cfg, s, d, x); }
    }
  }

  lemma RouterSide(cfg: Cfg, s: Net, c: Client, d: Client)
    requires Good(cfg) && Serving(cfg, s, c) && Defined(cfg, s, AtRouter(c))
    ensures SideOk(cfg, ApplyAtRouter(cfg, s, c), d)
  {
    var t := ApplyAtRouter(cfg, s, c);
    assert SideOk(cfg, s, d);
    var x, y := s.side(d), t.side(d);
    forall j | 0 <= j < |y.down| ensures AnswerOk(cfg, t, d, y.down[j]) { assert AnswerOk(cfg, s, d, x.down[j]); }
    forall j | 0 <= j < |y.done| ensures AnswerOk(cfg, t, d, y.done[j]) { assert AnswerOk(cfg, s, d, x.done[j]); }
  }

  lemma RouterTable(cfg: Cfg, s: Net, c: Client, r: Router)
    requires Good(cfg) && Serving(cfg, s, c) && Defined(cfg, s, AtRouter(c))
    ensures TableOk(cfg, ApplyAtRouter(cfg, s, c), r)
  {
    assert TableOk(cfg, s, r) && UpOk(cfg, s, c);
    assert UpEventOk(s, c, s.side(c).up[0]);
  }

  lemma RouterMembers(cfg: Cfg, s: Net, c: Client, r: Router, d: Client, x: CommId)
    requires Good(cfg) && Serving(cfg, s, c) && Defined(cfg, s, AtRouter(c))
    ensures MembersOk(ApplyAtRouter(cfg, s, c), r, d, x)
  {
    var t := ApplyAtRouter(cfg, s, c);
    assert MembersOk(s, r, d, x);
    if (d, x) in t.rtr(r).comms {
      var groups := t.rtr(r).comms[(d, x)];
      forall g, j | 0 <= g < |groups| && 0 <= j < |groups[g]| ensures MemberReady(t, r, x, groups[g][j]) {
        var m := groups[g][j];
        if (d, x) in s.rtr(r).comms {
          assert MemberReady(s, r, x, m);
          if OpensComm(s.fwd(r, m), x) {
            OpensKept(s.fwd(r, m), t.fwd(r, m)[|s.fwd(r, m)|..], x);
            assert t.fwd(r, m) == s.fwd(r, m) + t.fwd(r, m)[|s.fwd(r, m)|..];
          }
        } else {
          MemberSlot(groups, g, j);
          assert t.fwd(r, m) == s.fwd(r, m) + Opens(x, groups, m);
          assert t.fwd(r, m)[|s.fwd(r, m)|] == Open(x, m);
        }
      }
    }
  }

  lemma RouterDown(cfg: Cfg, s: Net, c: Client, r: Router, m: Name)
    requires Good(cfg) && Serving(cfg, s, c) && Defined(cfg, s, AtRouter(c))
    ensures DownOk(ApplyAtRouter(cfg, s, c), r, m)
  {
    var t := ApplyAtRouter(cfg, s, c);
    assert DownOk(s, r, m);
    if r == cfg.home(c) {
      var e := s.side(c).up[0];
      var rs := s.rtr(r);
      var more := if e.Create? then Opens(e.comm, e.groups, m)
                  else Queries(e.comm, rs.next, e.attrs, rs.comms[(c, e.comm)], m);
      assert t.fwd(r, m) == s.fwd(r, m) + more;
      if e.Ask? {
        var groups := rs.comms[(c, e.comm)];
        assert MembersOk(s, r, c, e.comm);
        forall k | 0 <= k < |more| ensures more[k].comm in s.srv(m).comms || OpensComm(s.fwd(r, m), more[k].comm) {
          SlotsMember(groups, m, k);
          var g := Slots(groups, m, |groups|)[k];
          var j :| 0 <= j < |groups[g]| && groups[g][j] == m;
          assert MemberReady(s, r, e.comm, groups[g][j]);
        }
      }
      OrderedDownAppend(s.fwd(r, m), s.srv(m).comms.Keys, more);
    }
  }

  lemma RouterCircuit(cfg: Cfg, s: Net, c: Client, r: Router, m: Name)
    requires Good(cfg) && Serving(cfg, s, c) && Defined(cfg, s, AtRouter(c))
    ensures CircuitOk(cfg, ApplyAtRouter(cfg, s, c), r, m)
  {
    RouterQueries(cfg, s, c, r, m);
    RouterTokens(cfg, s, c, r, m);
    assert CircuitOk(cfg, s, r, m);
    hide TokenOk, QueryOk, Serving, Defined, Good;
  }

  lemma RouterTokens(cfg: Cfg, s: Net, c: Client, r: Router, m: Name)
    requires Good(cfg) && Serving(cfg, s, c) && Defined(cfg, s, AtRouter(c))
    ensures var t := ApplyAtRouter(cfg, s, c);
            forall k :: 0 <= k < |t.back(r, m)| ==> TokenOk(cfg, t, r, m, t.back(r, m)[k])
  {
    var t := ApplyAtRouter(cfg, s, c);
    assert CircuitOk(cfg, s, r, m);
    assert RecordOk(cfg, s, r, s.rtr(r).next);
    forall k | 0 <= k < |t.back(r, m)| ensures TokenOk(cfg, t, r, m, t.back(r, m)[k]) {
      assert TokenOk(cfg, s, r, m, s.back(r, m)[k]);
    }
  }

  lemma RouterQueries(cfg: Cfg, s: Net, c: Client, r: Router, m: Name)
    requires Good(cfg) && Serving(cfg, s, c) && Defined(cfg, s, AtRouter(c))
    ensures var t := ApplyAtRouter(cfg, s, c);
            forall k :: 0 <= k < |t.fwd(r, m)| ==> QueryOk(t, r, t.fwd(r, m)[k])
  {
    var t := ApplyAtRouter(cfg, s, c);
    assert CircuitOk(cfg, s, r, m);
    assert RecordOk(cfg, s, r, s.rtr(r).next);
    var e := s.side(c).up[0];
    forall k | 0 <= k < |t.fwd(r, m)| ensures QueryOk(t, r, t.fwd(r, m)[k]) {
      if k < |s.fwd(r, m)| {
        assert QueryOk(s, r, s.fwd(r, m)[k]);
      } else if e.Ask? {
        SlotsMember(s.rtr(r).comms[(c, e.comm)], m, k - |s.fwd(r, m)|);
      }
    }
  }

  lemma RouterRecord(cfg: Cfg, s: Net, c: Client, r: Router, i: nat)
    requires Good(cfg) && Serving(cfg, s, c) && Defined(cfg, s, AtRouter(c))
    ensures RecordOk(cfg, ApplyAtRouter(cfg, s, c), r, i)
  {
    var t := ApplyAtRouter(cfg, s, c);
    assert RecordOk(cfg, s, r, i);
    var e := s.side(c).up[0];
    assert UpOk(cfg, s, c) && UpEventOk(s, c, e);
    if r == cfg.home(c) && e.Ask? && i == s.rtr(r).next {
      assert TableOk(cfg, s, r);
      var groups := s.rtr(r).comms[(c, e.comm)];
      assert Usable(groups);
      assert SideOk(cfg, s, c);
      StartValid(Get, |e.attrs|, Sizes(groups));
      var rec := NewRecord(c, e.id, e.comm, e.attrs, groups);
      forall g | 0 <= g < |groups| ensures GroupRecOk(cfg, rec, g) {}
      assert RecordShape(cfg, rec);
    }
  }

  lemma RouterJob(cfg: Cfg, s: Net, c: Client, m: Name)
    requires Good(cfg) && Serving(cfg, s, c) && Defined(cfg, s, AtRouter(c))
    ensures DaemonOk(cfg, ApplyAtRouter(cfg, s, c), m)
  {
    var t := ApplyAtRouter(cfg, s, c);
    assert DaemonOk(cfg, s, m);
    forall k ensures JobOk(cfg, t, m, k) {
      assert JobOk(cfg, s, m, k);
      if k in s.srv(m).fini {
        var job := s.srv(m).fini[k];
        assert RecordOk(cfg, s, job.rtr, s.rtr(job.rtr).next);
      }
    }
  }

  // ----- the counting clauses -----

  lemma NoTrace(cfg: Cfg, s: Net, r: Router, i: nat, g: nat, m: Name)
    requires Good(cfg) && Inv(cfg, s) && i !in s.rtr(r).infos
    ensures Count(s.fwd(r, m), IsQuery(i, g)) == 0
    ensures Count(s.back(r, m), IsToken(i, g)) == 0
    ensures JobsFor(s.srv(m).fini, r, i, g) == {}
  {
    assert CircuitOk(cfg, s, r, m) && DaemonOk(cfg, s, m);
    forall k | 0 <= k < |s.fwd(r, m)| ensures !IsQuery(i, g)(s.fwd(r, m)[k]) { assert QueryOk(s, r, s.fwd(r, m)[k]); }
    forall k | 0 <= k < |s.back(r, m)| ensures !IsToken(i, g)(s.back(r, m)[k])
    {
      assert TokenOk(cfg, s, r, m, s.back(r, m)[k]);
    }
    CountNone(s.fwd(r, m), IsQuery(i, g));
    CountNone(s.back(r, m), IsToken(i, g));
    forall k | k in s.srv(m).fini ensures s.srv(m).fini[k].rtr != r || s.srv(m).fini[k].id != i
    {
      assert JobOk(cfg, s, m, k);
    }
  }

  lemma RouterBalance(cfg: Cfg, s: Net, c: Client, r: Router, i: nat, g: nat, m: Name)
    requires Good(cfg) && Serving(cfg, s, c) && Defined(cfg, s, AtRouter(c))
    ensures Balance(ApplyAtRouter(cfg, s, c), r, i, g, m)
  {
    var t := ApplyAtRouter(cfg, s, c);
    assert Balance(s, r, i, g, m);
    if r == cfg.home(c) {
      var e := s.side(c).up[0];
      var rs := s.rtr(r);
      var q := s.fwd(r, m);
      if e.Create? {
        CountAppend(q, Opens(e.comm, e.groups, m), IsQuery(i, g));
        CountNone(Opens(e.comm, e.groups, m), IsQuery(i, g));
      } else {
        var groups := rs.comms[(c, e.comm)];
        var more := Queries(e.comm, rs.next, e.attrs, groups, m);
        CountAppend(q, more, IsQuery(i, g));
        assert RecordOk(cfg, s, r, rs.next);
        if i == rs.next {
          NoTrace(cfg, s, r, i, g, m);
          if g < |groups| { QueriesCount(e.comm, i, e.attrs, groups, m, g); }
        } else {
          CountNone(more, IsQuery(i, g));
        }
      }
    }
  }

  lemma RouterRecordsFor(cfg: Cfg, s: Net, c: Client, d: Client, k: nat)
    requires Good(cfg) && Serving(cfg, s, c) && Defined(cfg, s, AtRouter(c))
    ensures |RecordsFor(ApplyAtRouter(cfg, s, c).rtr(cfg.home(d)).infos, d, k)|
         == |RecordsFor(s.rtr(cfg.home(d)).infos, d, k)|
            + if d == c && s.side(c).up[0].Ask? && s.side(c).up[0].id == k then 1 else 0
  {
    var e := s.side(c).up[0];
    var r := cfg.home(d);
    var infos, next := s.rtr(r).infos, s.rtr(r).next;
    var t := ApplyAtRouter(cfg, s, c);
    assert RecordOk(cfg, s, r, next);
    if r == cfg.home(c) && e.Ask? {
      RecordsForAdd(infos, next, NewRecord(c, e.id, e.comm, e.attrs, s.rtr(r).comms[(c, e.comm)]), d, k);
    }
  }

  lemma RecordsForAdd(infos: map<nat, Record>, i: nat, rec: Record, d: Client, k: nat)
    requires i !in infos
    ensures |RecordsFor(infos[i := rec], d, k)| == |RecordsFor(infos, d, k)| + if rec.src == d
        && rec.respId == k then 1 else 0
  {
    var before, after := RecordsFor(infos, d, k), RecordsFor(infos[i := rec], d, k);
    if rec.src == d && rec.respId == k {
      assert after == before + {i};
    } else {
      assert after == before;
    }
  }

  lemma RouterStages(cfg: Cfg, s: Net, c: Client, d: Client, k: nat)
    requires Good(cfg) && Serving(cfg, s, c) && Defined(cfg, s, AtRouter(c))
    ensures ClientBalance(cfg, ApplyAtRouter(cfg, s, c), d, k)
  {
    assert ClientBalance(cfg, s, d, k);
    RouterRecordsFor(cfg, s, c, d, k);
  }

  lemma AtRouterKeeps(cfg: Cfg, s: Net, c: Client)
    requires Good(cfg) && Inv(cfg, s) && Enabled(cfg, s, AtRouter(c)) && Defined(cfg, s, AtRouter(c))
    ensures Inv(cfg, ApplyAtRouter(cfg, s, c))
  {
    var t := ApplyAtRouter(cfg, s, c);
    forall d ensures UpOk(cfg, t, d) { RouterUp(cfg, s, c, d); }
    forall d ensures SideOk(cfg, t, d) { RouterSide(cfg, s, c, d); }
    forall d, k: nat ensures ClientBalance(cfg, t, d, k) { RouterStages(cfg, s, c, d, k); }
    forall r: Router ensures TableOk(cfg, t, r) { RouterTable(cfg, s, c, r); }
    forall r: Router, d, x ensures MembersOk(t, r, d, x) { RouterMembers(cfg, s, c, r, d, x); }
    forall r: Router, i: nat ensures RecordOk(cfg, t, r, i) { RouterRecord(cfg, s, c, r, i); }
    forall r: Router, m ensures DownOk(t, r, m) && CircuitOk(cfg, t, r, m) {
      RouterDown(cfg, s, c, r, m);
      RouterCircuit(cfg, s, c, r, m);
    }
    forall m ensures ServerCommsOk(cfg, t, m) && DaemonOk(cfg, t, m) {
      assert ServerCommsOk(cfg, s, m);
      RouterJob(cfg, s, c, m);
    }
    forall r: Router, i: nat, g: nat, m ensures Balance(t, r, i, g, m) { RouterBalance(cfg, s, c, r, i, g, m); }
  }
}
