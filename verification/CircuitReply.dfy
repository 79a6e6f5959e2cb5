/** A router takes a server's reply: it queues it, and answers the client when it was the last one. */
module CircuitReply {
  import opened Names
  import opened Gather
  import opened Circuits
  import opened CircuitInvariant

  ghost predicate Gathering(cfg: Cfg, s: Net, r: Router, m: Name)
    requires Good(cfg)
  {
    Inv(cfg, s) && s.back(r, m) != [] && Defined(cfg, s, AtReply(r, m))
  }

  /** The record with the reply added. */
  ghost function Now(cfg: Cfg, s: Net, r: Router, m: Name): Record
    requires s.back(r, m) != [] && Defined(cfg, s, AtReply(r, m))
  {
    Received(s.rtr(r).infos[s.back(r, m)[0].id], s.back(r, m)[0])
  }

  lemma NowShape(cfg: Cfg, s: Net, r: Router, m: Name)
    requires Good(cfg) && Gathering(cfg, s, r, m)
    ensures RecordShape(cfg, Now(cfg, s, r, m))
    ensures var old_ := s.rtr(r).infos[s.back(r, m)[0].id];
            var rec := Now(cfg, s, r, m);
            && rec.src == old_.src && rec.respId == old_.respId && rec.comm == old_.comm
            && rec.attrs == old_.attrs && rec.groups == old_.groups
  {
    var t := s.back(r, m)[0];
    var before := s.rtr(r).infos[t.id];
    assert CircuitOk(cfg, s, r, m) && TokenOk(cfg, s, r, m, t) && RecordOk(cfg, s, r, t.id);
    ProcessValid(before.info, t.grp, t.reply);
    var rec := Now(cfg, s, r, m);
    assert GroupRecOk(cfg, before, t.grp);
    forall g | 0 <= g < |rec.groups| ensures GroupRecOk(cfg, rec, g) { assert GroupRecOk(cfg, before, g); }
    assert rec.info.resp.errs == [] by {
      if |before.info.respQ[t.grp]| + 1 == before.info.sizes[t.grp] {
        var q := before.info.respQ[t.grp] + [t.reply];
        NoErrors(q);
      }
    }
  }

  lemma {:induction false} NoErrors(q: seq<Reply>)
    requires forall j :: 0 <= j < |q| ==> q[j].errs == []
    ensures ErrsOf(q) == []
  {
    if q != [] { NoErrors(q[..|q| - 1]); }
  }

  // ----- what a complete record says -----

  lemma SameSize<T>(a: multiset<T>, b: multiset<T>)
    requires (forall x :: a[x] <= b[x]) && |a| == |b|
    ensures a == b
  {
    assert b == a + (b - a);
    assert |b - a| == 0;
  }

  /** When no group is pending, every group has exactly the replies of its members. */
  lemma CompleteNames(cfg: Cfg, s: Net, r: Router, m: Name, g: nat)
    requires Good(cfg) && Gathering(cfg, s, r, m) && Now(cfg, s, r, m).info.pending == 0
    requires g < |Now(cfg, s, r, m).groups| == |Now(cfg, s, r, m).from|
    ensures multiset(Now(cfg, s, r, m).from[g]) == multiset(Now(cfg, s, r, m).groups[g])
  {
    var t := s.back(r, m)[0];
    var rec := Now(cfg, s, r, m);
    NowShape(cfg, s, r, m);
    var before := s.rtr(r).infos[t.id];
    assert GroupRecOk(cfg, rec, g);
    forall h | 0 <= h < |rec.info.respQ| ensures |rec.info.respQ[h]| <= rec.info.sizes[h]
    {
      assert GroupOk(rec.info, h);
    }
    IncompleteZero(rec.info.respQ, rec.info.sizes, |rec.info.sizes|);
    var a, b := multiset(rec.from[g]), multiset(rec.groups[g]);
    assert |a| == |rec.from[g]| && |b| == |rec.groups[g]|;
    assert CircuitOk(cfg, s, r, m) && TokenOk(cfg, s, r, m, t);
    forall n ensures a[n] <= b[n] {
      assert Balance(s, r, t.id, g, n);
      if g == t.grp && n == m { CountSome(s.back(r, m), IsToken(t.id, g), 0); }
    }
    SameSize(a, b);
  }

  /** And the row of the group is the sum of the rows its members owe. */
  lemma CompleteRow(cfg: Cfg, s: Net, r: Router, m: Name, g: nat)
    requires Good(cfg) && Gathering(cfg, s, r, m) && Now(cfg, s, r, m).info.pending == 0
    requires g < |Now(cfg, s, r, m).groups|
    ensures var rec := Now(cfg, s, r, m);
            && |rec.info.resp.rows| == |rec.groups| == |rec.info.resp.stamps|
            && rec.info.resp.rows[g] == Expected(cfg, rec.groups[g], rec.attrs)
            && |rec.info.resp.stamps[g]| == |rec.attrs|
  {
    var rec := Now(cfg, s, r, m);
    NowShape(cfg, s, r, m);
    CompleteNames(cfg, s, r, m, g);
    assert GroupRecOk(cfg, rec, g) && GroupOk(rec.info, g);
    var q := rec.info.respQ[g];
    assert |multiset(rec.from[g])| == |rec.from[g]| && |multiset(rec.groups[g])| == |rec.groups[g]|;
    assert RowsOf(q) == RowsFor(cfg, rec.from[g], rec.attrs);
    RowsForMultiset(cfg, rec.from[g], rec.groups[g], rec.attrs);
    ColumnSumPermutation(|rec.attrs|, RowsFor(cfg, rec.from[g], rec.attrs), RowsFor(cfg, rec.groups[g], rec.attrs));
  }

  /** And every member of the group, having answered, was fit to. */
  lemma CompleteFit(cfg: Cfg, s: Net, r: Router, m: Name, g: nat)
    requires Good(cfg) && Gathering(cfg, s, r, m) && Now(cfg, s, r, m).info.pending == 0
    requires g < |Now(cfg, s, r, m).groups|
    ensures MembersFit(cfg, Now(cfg, s, r, m).groups[g], Now(cfg, s, r, m).attrs)
  {
    var rec := Now(cfg, s, r, m);
    NowShape(cfg, s, r, m);
    CompleteNames(cfg, s, r, m, g);
    assert GroupRecOk(cfg, rec, g);
    forall j | 0 <= j < |rec.groups[g]| ensures cfg.fit(rec.groups[g][j], rec.attrs) {
      assert rec.groups[g][j] in multiset(rec.from[g]);
      var k :| 0 <= k < |rec.from[g]| && rec.from[g][k] == rec.groups[g][j];
      assert ReplyOk(cfg, rec.from[g][k], rec.attrs, rec.info.respQ[g][k]);
    }
  }

  lemma {:induction false} RowsForMultiset(cfg: Cfg, a: seq<Name>, b: seq<Name>, attrs: seq<Attr>)
    requires multiset(a) == multiset(b)
    ensures multiset(RowsFor(cfg, a, attrs)) == multiset(RowsFor(cfg, b, attrs))
  {
    if a == [] {
      assert |multiset(b)| == |b|;
    } else {
      assert a[0] in multiset(b);
      var k :| 0 <= k < |b| && b[k] == a[0];
      var x, y := RowsFor(cfg, a, attrs), RowsFor(cfg, b, attrs);
      DropCommon(a, b, k);
      RowsForMultiset(cfg, a[1..], b[..k] + b[k + 1..], attrs);
      MultisetSplit(x, 0);
      MultisetSplit(y, k);
      assert x[..0] + x[1..] == RowsFor(cfg, a[1..], attrs);
      assert y[..k] + y[k + 1..] == RowsFor(cfg, b[..k] + b[k + 1..], attrs);
    }
  }

  // ----- the counting clauses -----

  lemma ReplyBalance(cfg: Cfg, s: Net, r: Router, m: Name, q: Router, i: nat, g: nat, n: Name)
    requires Good(cfg) && Gathering(cfg, s, r, m)
    ensures Balance(ApplyAtReply(cfg, s, r, m), q, i, g, n)
  {
    if q == r && i == s.back(r, m)[0].id {
      OwnBalance(cfg, s, r, m, g, n);
    } else {
      assert Balance(s, q, i, g, n);
      OtherBalance(cfg, s, r, m, q, i, g, n);
    }
  }

  lemma OtherBalance(cfg: Cfg, s: Net, r: Router, m: Name, q: Router, i: nat, g: nat, n: Name)
    requires s.back(r, m) != [] && Defined(cfg, s, AtReply(r, m)) && Balance(s, q, i, g, n)
    requires q != r || i != s.back(r, m)[0].id
    ensures Balance(ApplyAtReply(cfg, s, r, m), q, i, g, n)
  {
    hide Received;
    var t := ApplyAtReply(cfg, s, r, m);
    assert t.srv(n) == s.srv(n) && t.fwd(q, n) == s.fwd(q, n);
    assert i in t.rtr(q).infos <==> i in s.rtr(q).infos;
  }

  lemma OwnBalance(cfg: Cfg, s: Net, r: Router, m: Name, g: nat, n: Name)
    requires Good(cfg) && Gathering(cfg, s, r, m)
    ensures Balance(ApplyAtReply(cfg, s, r, m), r, s.back(r, m)[0].id, g, n)
  {
    NowShape(cfg, s, r, m);
    var token := s.back(r, m)[0];
    assert Balance(s, r, token.id, g, n);
    assert CircuitOk(cfg, s, r, m) && TokenOk(cfg, s, r, m, token);
    if Now(cfg, s, r, m).info.pending != 0 {
      var from := s.rtr(r).infos[token.id].from;
      assert multiset(from[token.grp] + [m])[n] == multiset(from[token.grp])[n] + if n == m then 1 else 0;
    }
  }

  /** After the last reply nothing in the network refers to the record any more. */
  lemma LastReplyLeavesNothing(cfg: Cfg, s: Net, r: Router, m: Name, n: Name, g: nat)
    requires Good(cfg) && Gathering(cfg, s, r, m) && Now(cfg, s, r, m).info.pending == 0
    requires g < |Now(cfg, s, r, m).groups|
    ensures var i := s.back(r, m)[0].id;
            var t := ApplyAtReply(cfg, s, r, m);
            && Count(t.fwd(r, n), IsQuery(i, g)) == 0 && Count(t.back(r, n), IsToken(i, g)) == 0
            && JobsFor(t.srv(n).fini, r, i, g) == {}
  {
    var token := s.back(r, m)[0];
    NowShape(cfg, s, r, m);
    CompleteNames(cfg, s, r, m, g);
    assert Balance(s, r, token.id, g, n);
    assert CircuitOk(cfg, s, r, m) && TokenOk(cfg, s, r, m, token);
  }

  lemma ReplyCircuit(cfg: Cfg, s: Net, r: Router, m: Name, q: Router, n: Name)
    requires Good(cfg) && Gathering(cfg, s, r, m)
    ensures CircuitOk(cfg, ApplyAtReply(cfg, s, r, m), q, n)
  {
    var t := ApplyAtReply(cfg, s, r, m);
    var token := s.back(r, m)[0];
    NowShape(cfg, s, r, m);
    assert CircuitOk(cfg, s, q, n);
    forall k | 0 <= k < |t.fwd(q, n)| ensures QueryOk(t, q, t.fwd(q, n)[k]) {
      var e := t.fwd(q, n)[k];
      assert QueryOk(s, q, e);
      if q == r && e.Query? && e.id == token.id && Now(cfg, s, r, m).info.pending == 0 {
        LastReplyLeavesNothing(cfg, s, r, m, n, e.grp);
        CountSome(t.fwd(q, n), IsQuery(e.id, e.grp), k);
      }
    }
    forall k | 0 <= k < |t.back(q, n)| ensures TokenOk(cfg, t, q, n, t.back(q, n)[k]) {
      var e := t.back(q, n)[k];
      assert e == s.back(q, n)[if q == r && n == m then k + 1 else k];
      assert TokenOk(cfg, s, q, n, e);
      if q == r && e.id == token.id && Now(cfg, s, r, m).info.pending == 0 {
        LastReplyLeavesNothing(cfg, s, r, m, n, e.grp);
        CountSome(t.back(q, n), IsToken(e.id, e.grp), k);
      }
    }
  }

  lemma ReplyDaemon(cfg: Cfg, s: Net, r: Router, m: Name, n: Name)
    requires Good(cfg) && Gathering(cfg, s, r, m)
    ensures DaemonOk(cfg, ApplyAtReply(cfg, s, r, m), n)
  {
    var t := ApplyAtReply(cfg, s, r, m);
    var token := s.back(r, m)[0];
    NowShape(cfg, s, r, m);
    assert DaemonOk(cfg, s, n);
    forall k ensures JobOk(cfg, t, n, k) {
      assert JobOk(cfg, s, n, k);
      if k in s.srv(n).fini && s.srv(n).fini[k].rtr == r && s.srv(n).fini[k].id == token.id
         && Now(cfg, s, r, m).info.pending == 0 {
        var job := s.srv(n).fini[k];
        assert k in JobsFor(s.srv(n).fini, r, token.id, job.grp);
        LastReplyLeavesNothing(cfg, s, r, m, n, job.grp);
      }
    }
  }

  // ----- the clauses about records and contexts -----

  lemma ReplyRecord(cfg: Cfg, s: Net, r: Router, m: Name, q: Router, i: nat)
    requires Good(cfg) && Gathering(cfg, s, r, m)
    ensures RecordOk(cfg, ApplyAtReply(cfg, s, r, m), q, i)
  {
    NowShape(cfg, s, r, m);
    assert RecordOk(cfg, s, q, i);
  }

  lemma RecordsForReplace(infos: map<nat, Record>, i: nat, rec: Record, d: Client, k: nat)
    requires i in infos && rec.src == infos[i].src && rec.respId == infos[i].respId
    ensures RecordsFor(infos[i := rec], d, k) == RecordsFor(infos, d, k)
  {
  }

  lemma RecordsForRemove(infos: map<nat, Record>, i: nat, d: Client, k: nat)
    requires i in infos
    ensures |RecordsFor(infos - {i}, d, k)|
         == |RecordsFor(infos, d, k)| - if infos[i].src == d && infos[i].respId == k then 1 else 0
  {
    var before, after := RecordsFor(infos, d, k), RecordsFor(infos - {i}, d, k);
    forall j ensures j in after <==> j in before && j != i {}
    if infos[i].src == d && infos[i].respId == k {
      assert after == before - {i};
    } else {
      assert after == before;
    }
  }

  lemma ReplyStages(cfg: Cfg, s: Net, r: Router, m: Name, d: Client, k: nat)
    requires Good(cfg) && Gathering(cfg, s, r, m)
    ensures ClientBalance(cfg, ApplyAtReply(cfg, s, r, m), d, k)
  {
    assert ClientBalance(cfg, s, d, k);
    NowShape(cfg, s, r, m);
    var i := s.back(r, m)[0].id;
    var rec := Now(cfg, s, r, m);
    assert RecordOk(cfg, s, r, i);
    if rec.info.pending == 0 {
      if cfg.home(d) == r { RecordsForRemove(s.rtr(r).infos, i, d, k); }
      if d == rec.src { CountAppend(s.side(d).down, [Answer(rec.respId, rec.info.resp)], IsAnswer(k)); }
    } else if cfg.home(d) == r {
      RecordsForReplace(s.rtr(r).infos, i, rec, d, k);
    }
  }

  lemma ReplySide(cfg: Cfg, s: Net, r: Router, m: Name, d: Client)
    requires Good(cfg) && Gathering(cfg, s, r, m)
    ensures SideOk(cfg, ApplyAtReply(cfg, s, r, m), d)
  {
    var t := ApplyAtReply(cfg, s, r, m);
    var i := s.back(r, m)[0].id;
    var rec := Now(cfg, s, r, m);
    NowShape(cfg, s, r, m);
    assert SideOk(cfg, s, d) && RecordOk(cfg, s, r, i) && TableOk(cfg, s, r);
    forall j | 0 <= j < |t.side(d).done| ensures AnswerOk(cfg, t, d, t.side(d).done[j])
    {
      assert AnswerOk(cfg, s, d, s.side(d).done[j]);
    }
    forall j | 0 <= j < |t.side(d).down| ensures AnswerOk(cfg, t, d, t.side(d).down[j]) {
      if j < |s.side(d).down| {
        assert t.side(d).down[j] == s.side(d).down[j] && AnswerOk(cfg, s, d, s.side(d).down[j]);
      } else {
        forall g | 0 <= g < |rec.groups|
          ensures |rec.info.resp.rows| == |rec.groups| == |rec.info.resp.stamps|
              && MembersFit(cfg, rec.groups[g], rec.attrs)
          ensures rec.info.resp.rows[g] == Expected(cfg, rec.groups[g], rec.attrs)
              && |rec.info.resp.stamps[g]| == |rec.attrs|
        {
          CompleteRow(cfg, s, r, m, g);
          CompleteFit(cfg, s, r, m, g);
        }
        CompleteRow(cfg, s, r, m, 0);
      }
    }
  }

  lemma AtReplyKeeps(cfg: Cfg, s: Net, r: Router, m: Name)
    requires Good(cfg) && Gathering(cfg, s, r, m)
    ensures Inv(cfg, ApplyAtReply(cfg, s, r, m))
  {
    hide RecordOk, CircuitOk, DaemonOk, Balance, SideOk, ClientBalance;
    var t := ApplyAtReply(cfg, s, r, m);
    forall d ensures UpOk(cfg, t, d) {
      assert UpOk(cfg, s, d);
      forall k | 0 <= k < |t.side(d).up| ensures UpEventOk(t, d, t.side(d).up[k])
      {
        assert UpEventOk(s, d, s.side(d).up[k]);
      }
      forall comm ensures CommKnown(cfg, t, d, comm) { assert CommKnown(cfg, s, d, comm); }
    }
    forall d ensures SideOk(cfg, t, d) { ReplySide(cfg, s, r, m, d); }
    forall d, k: nat ensures ClientBalance(cfg, t, d, k) { ReplyStages(cfg, s, r, m, d, k); }
    forall q: Router ensures TableOk(cfg, t, q) { assert TableOk(cfg, s, q); }
    forall q: Router, d, x ensures MembersOk(t, q, d, x) { assert MembersOk(s, q, d, x); }
    forall q: Router, i: nat ensures RecordOk(cfg, t, q, i) { ReplyRecord(cfg, s, r, m, q, i); }
    forall q: Router, n ensures DownOk(t, q, n) && CircuitOk(cfg, t, q, n) {
      assert DownOk(s, q, n);
      ReplyCircuit(cfg, s, r, m, q, n);
    }
    forall n ensures ServerCommsOk(cfg, t, n) && DaemonOk(cfg, t, n) {
      assert ServerCommsOk(cfg, s, n);
      ReplyDaemon(cfg, s, r, m, n);
    }
    forall q: Router, i: nat, g: nat, n ensures Balance(t, q, i, g, n) { ReplyBalance(cfg, s, r, m, q, i, g, n); }
  }
}
