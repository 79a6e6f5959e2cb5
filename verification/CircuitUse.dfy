/** A context creates a communicator on first use and sends a request: what that keeps. */
module CircuitUse {
  import opened Names
  import opened Circuits
  import opened CircuitInvariant

  lemma {:induction false} OrderedAgree(q: seq<UpEvent>, c: Client, a: set<(Client, CommId)>, b: set<(Client, CommId)>)
    requires forall comm :: (c, comm) in a <==> (c, comm) in b
    ensures Ordered(q, c, a) <==> Ordered(q, c, b)
  {
    if q != [] {
      match q[0]
      case Create(comm, _) => OrderedAgree(q[1..], c, a + {(c, comm)}, b + {(c, comm)});
      case Ask(_, _, _) => OrderedAgree(q[1..], c, a, b);
    }
  }

  lemma {:induction false} OrderedAsk(q: seq<UpEvent>, c: Client, known: set<(Client, CommId)>, e: UpEvent)
    requires e.Ask? && Ordered(q, c, known) && ((c, e.comm) in known || Creates(q, e.comm))
    ensures Ordered(q + [e], c, known)
  {
    if q == [] {
      assert q + [e] == [e];
    } else {
      assert (q + [e])[1..] == q[1..] + [e];
      var rest := if q[0].Create? then known + {(c, q[0].comm)} else known;
      if (c, e.comm) !in rest {
        var k :| 0 <= k < |q| && q[k].Create? && q[k].comm == e.comm;
        assert k != 0;
        assert q[1..][k - 1] == q[k];
      }
      OrderedAsk(q[1..], c, rest, e);
    }
  }

  lemma {:induction false} OrderedCreate(q: seq<UpEvent>, c: Client, known: set<(Client, CommId)>, e: UpEvent)
    requires e.Create? && Ordered(q, c, known) && (c, e.comm) !in known && !Creates(q, e.comm)
    ensures Ordered(q + [e], c, known)
  {
    if q == [] {
      assert q + [e] == [e];
    } else {
      assert (q + [e])[1..] == q[1..] + [e];
      var rest := if q[0].Create? then known + {(c, q[0].comm)} else known;
      assert forall k :: 0 <= k < |q[1..]| ==> q[1..][k] == q[k + 1];
      OrderedCreate(q[1..], c, rest, e);
    }
  }

  /** The communicator is new, or it is the client's own with these groups. */
  ghost predicate MayUse(s: Net, client: Client, comm: CommId, groups: Groups, attrs: seq<Attr>) {
    attrs != [] && Usable(groups) && (comm in s.registry ==> s.registry[comm] == Comm(client, groups))
  }

  lemma UseRegistry(cfg: Cfg, s: Net, client: Client, comm: CommId, groups: Groups, attrs: seq<Attr>)
    requires RegistryOk(s) && MayUse(s, client, comm, groups, attrs)
    requires forall r: Router :: TableOk(cfg, s, r)
    ensures var t := ApplyUse(s, client, comm, groups, attrs);
            && RegistryOk(t)
            && (forall r: Router :: TableOk(cfg, t, r))
            && comm in t.registry && t.registry[comm] == Comm(client, groups)
            && (forall x :: x in s.registry ==> x in t.registry && t.registry[x] == s.registry[x])
            && (forall x :: x in t.registry && x != comm ==> x in s.registry)
  {
    var t := ApplyUse(s, client, comm, groups, attrs);
    forall r: Router ensures TableOk(cfg, t, r) { assert TableOk(cfg, s, r); }
  }

  lemma UseUp(cfg: Cfg, s: Net, client: Client, comm: CommId, groups: Groups, attrs: seq<Attr>, c: Client)
    requires Good(cfg) && RegistryOk(s) && MayUse(s, client, comm, groups, attrs)
    requires forall r: Router :: TableOk(cfg, s, r)
    requires UpOk(cfg, s, c) && SideOk(cfg, s, c)
    ensures UpOk(cfg, ApplyUse(s, client, comm, groups, attrs), c)
  {
    var t := ApplyUse(s, client, comm, groups, attrs);
    UseRegistry(cfg, s, client, comm, groups, attrs);
    var q, p := s.side(c).up, t.side(c).up;
    var known := s.rtr(cfg.home(c)).comms.Keys;
    assert TableOk(cfg, s, cfg.home(c));
    if c == client {
      var ask := Ask(comm, s.side(c).next, attrs);
      assert CommKnown(cfg, s, c, comm);
      if comm in s.registry {
        assert p == q + [ask];
        OrderedAsk(q, c, known, ask);
      } else {
        var create := Create(comm, groups);
        assert !Creates(q, comm);
        OrderedCreate(q, c, known, create);
        assert (q + [create])[|q|] == create;
        OrderedAsk(q + [create], c, known, ask);
        assert p == q + [create] + [ask];
      }
      forall k | 0 <= k < |p| ensures UpEventOk(t, c, p[k]) {
        if k < |q| { assert p[k] == q[k] && UpEventOk(s, c, q[k]); }
      }
      forall x ensures CommKnown(cfg, t, c, x) {
        assert CommKnown(cfg, s, c, x);
        if Creates(q, x) {
          var k :| 0 <= k < |q| && q[k].Create? && q[k].comm == x;
          assert p[k] == q[k];
        }
        if x == comm && comm !in s.registry { assert p[|q|] == Create(comm, groups); }
      }
    } else {
      forall k | 0 <= k < |p| ensures UpEventOk(t, c, p[k]) { assert UpEventOk(s, c, q[k]); }
      forall x ensures CommKnown(cfg, t, c, x) { assert CommKnown(cfg, s, c, x); }
    }
  }

  lemma UseBalance(cfg: Cfg, s: Net, client: Client, comm: CommId, groups: Groups, attrs: seq<Attr>, c: Client, k: nat)
    requires SideIds(s, c) && ClientBalance(cfg, s, c, k)
    ensures ClientBalance(cfg, ApplyUse(s, client, comm, groups, attrs), c, k)
  {
    var t := ApplyUse(s, client, comm, groups, attrs);
    var x, y := s.side(c), t.side(c);
    if c == client {
      var added := y.up[|x.up|..];
      var ask := Ask(comm, x.next, attrs);
      assert y.up == x.up + added;
      assert added == if comm in s.registry then [ask] else [Create(comm, groups), ask];
      CountAppend(x.up, added, IsAsk(k));
      AskCount(added, ask, k);
    }
  }

  lemma AskCount(added: seq<UpEvent>, ask: UpEvent, k: nat)
    requires ask.Ask?
    requires added == [ask] || (|added| == 2 && added[0].Create? && added[1] == ask)
    ensures Count(added, IsAsk(k)) == if k == ask.id then 1 else 0
  {
    assert Count([ask], IsAsk(k)) == if k == ask.id then 1 else 0;
    if |added| == 2 { assert added[1..] == [ask]; }
  }

  ghost predicate SideIds(s: Net, c: Client) {
    forall k: nat :: k in s.side(c).asked <==> k < s.side(c).next
  }

  lemma UseAnswer(cfg: Cfg, s: Net, client: Client, comm: CommId, groups: Groups, attrs: seq<Attr>, c: Client,
                  a: Answer)
    requires Good(cfg) && SideIds(s, c) && AnswerOk(cfg, s, c, a)
    ensures AnswerOk(cfg, ApplyUse(s, client, comm, groups, attrs), c, a)
  {
  }

  lemma UseSide(cfg: Cfg, s: Net, client: Client, comm: CommId, groups: Groups, attrs: seq<Attr>, c: Client)
    requires Good(cfg) && RegistryOk(s) && MayUse(s, client, comm, groups, attrs)
    requires SideOk(cfg, s, c)
    requires forall k: nat :: ClientBalance(cfg, s, c, k)
    ensures SideOk(cfg, ApplyUse(s, client, comm, groups, attrs), c)
  {
    var t := ApplyUse(s, client, comm, groups, attrs);
    var x, y := s.side(c), t.side(c);
    forall j | 0 <= j < |y.down| ensures AnswerOk(cfg, t, c, y.down[j]) {
      UseAnswer(cfg, s, client, comm, groups, attrs, c, x.down[j]);
    }
    forall j | 0 <= j < |y.done| ensures AnswerOk(cfg, t, c, y.done[j]) {
      UseAnswer(cfg, s, client, comm, groups, attrs, c, x.done[j]);
    }
    assert ClientBalance(cfg, s, c, x.next);
  }
}
