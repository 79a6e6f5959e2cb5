/**
  What every step of the read protocol keeps. The counting clauses say that a
  fanned-out query is in exactly one place from the moment it is sent until its
  reply is queued, and that a read is in exactly one place until it is answered.
 */
module CircuitInvariant {
  import opened Names
  import opened Gather
  import opened Circuits

  // ----- counting events in a queue -----

  function Count<T>(q: seq<T>, p: T -> bool): nat {
    if q == [] then 0 else (if p(q[0]) then 1 else 0) + Count(q[1..], p)
  }

  lemma {:induction false} CountAppend<T>(a: seq<T>, b: seq<T>, p: T -> bool)
    ensures Count(a + b, p) == Count(a, p) + Count(b, p)
  {
    if a == [] {
      assert a + b == b;
    } else {
      assert (a + b)[1..] == a[1..] + b;
      CountAppend(a[1..], b, p);
    }
  }

  lemma {:induction false} CountNone<T>(q: seq<T>, p: T -> bool)
    requires forall k :: 0 <= k < |q| ==> !p(q[k])
    ensures Count(q, p) == 0
  {
    if q != [] { CountNone(q[1..], p); }
  }

  lemma {:induction false} CountSome<T>(q: seq<T>, p: T -> bool, k: nat)
    requires k < |q| && p(q[k])
    ensures 0 < Count(q, p)
  {
    if 0 < k { CountSome(q[1..], p, k - 1); }
  }

  function IsAsk(id: nat): UpEvent -> bool { (e: UpEvent) => e.Ask? && e.id == id }
  function IsQuery(id: nat, g: nat): DownEvent -> bool { (e: DownEvent) => e.Query? && e.id == id && e.grp == g }
  function IsToken(id: nat, g: nat): Token -> bool { (t: Token) => t.id == id && t.grp == g }
  function IsAnswer(id: nat): Answer -> bool { (a: Answer) => a.id == id }

  function JobsFor(fini: map<nat, Job>, r: Router, id: nat, g: nat): set<nat> {
    set k | k in fini && fini[k].rtr == r && fini[k].id == id && fini[k].grp == g
  }

  function RecordsFor(infos: map<nat, Record>, c: Client, id: nat): set<nat> {
    set i | i in infos && infos[i].src == c && infos[i].respId == id
  }

  // ----- create before use -----

  ghost predicate Creates(q: seq<UpEvent>, comm: CommId) {
    exists k :: 0 <= k < |q| && q[k].Create? && q[k].comm == comm
  }

  /** Reading q with the given communicators known, every request follows its create and no create is repeated. */
  ghost predicate Ordered(q: seq<UpEvent>, c: Client, known: set<(Client, CommId)>) {
    q == [] ||
    match q[0]
    case Create(comm, _) => (c, comm) !in known && Ordered(q[1..], c, known + {(c, comm)})
    case Ask(comm, _, _) => (c, comm) in known && Ordered(q[1..], c, known)
  }

  ghost predicate OpensComm(q: seq<DownEvent>, comm: CommId) {
    exists k :: 0 <= k < |q| && q[k].Open? && q[k].comm == comm
  }

  ghost predicate OrderedDown(q: seq<DownEvent>, known: set<CommId>) {
    q == [] ||
    match q[0]
    case Open(comm, _) => OrderedDown(q[1..], known + {comm})
    case Query(comm, _, _, _) => comm in known && OrderedDown(q[1..], known)
  }

  // ----- the clauses -----

  ghost predicate UpEventOk(s: Net, c: Client, e: UpEvent) {
    && e.comm in s.registry && s.registry[e.comm].owner == c
    && match e
       case Create(comm, groups) => s.registry[comm].groups == groups
       case Ask(comm, id, attrs) => id in s.side(c).asked && s.side(c).asked[id] == Want(comm, attrs)
  }

  ghost predicate CommKnown(cfg: Cfg, s: Net, c: Client, comm: CommId) {
    comm in s.registry && s.registry[comm].owner == c ==>
      (c, comm) in s.rtr(cfg.home(c)).comms || Creates(s.side(c).up, comm)
  }

  ghost predicate UpOk(cfg: Cfg, s: Net, c: Client) {
    && (forall k :: 0 <= k < |s.side(c).up| ==> UpEventOk(s, c, s.side(c).up[k]))
    && Ordered(s.side(c).up, c, s.rtr(cfg.home(c)).comms.Keys)
    && (forall comm :: CommKnown(cfg, s, c, comm))
  }

  /** A router's communicator table repeats what its clients created. */
  ghost predicate TableOk(cfg: Cfg, s: Net, r: Router) {
    forall c, comm :: (c, comm) in s.rtr(r).comms ==>
      cfg.home(c) == r && comm in s.registry && s.registry[comm] == Comm(c, s.rtr(r).comms[(c, comm)])
  }

  ghost predicate RegistryOk(s: Net) {
    forall comm :: comm in s.registry ==> Usable(s.registry[comm].groups)
  }

  ghost predicate DownOk(s: Net, r: Router, m: Name) {
    && OrderedDown(s.fwd(r, m), s.srv(m).comms.Keys)
    && (forall k :: 0 <= k < |s.fwd(r, m)| && s.fwd(r, m)[k].Open? ==> s.fwd(r, m)[k].member == m)
  }

  ghost predicate ServerCommsOk(cfg: Cfg, s: Net, m: Name) {
    forall comm :: comm in s.srv(m).comms ==> s.srv(m).comms[comm] == m && cfg.opens(m)
  }

  ghost predicate MemberReady(s: Net, r: Router, comm: CommId, m: Name) {
    comm in s.srv(m).comms || OpensComm(s.fwd(r, m), comm)
  }

  /** Every member of a communicator a router knows has been told about it, or the message is on its way. */
  ghost predicate MembersOk(s: Net, r: Router, c: Client, comm: CommId) {
    (c, comm) in s.rtr(r).comms ==>
      forall g, j :: 0 <= g < |s.rtr(r).comms[(c, comm)]| && 0 <= j < |s.rtr(r).comms[(c, comm)][g]| ==>
        MemberReady(s, r, comm, s.rtr(r).comms[(c, comm)][g][j])
  }

  ghost predicate ReplyOk(cfg: Cfg, m: Name, attrs: seq<Attr>, x: Reply) {
    x.row == cfg.row(m, attrs) && |x.stamps| == |attrs| && x.errs == [] && cfg.fit(m, attrs)
  }

  ghost predicate GroupRecOk(cfg: Cfg, rec: Record, g: nat)
    requires g < |rec.groups| == |rec.from| == |rec.info.respQ| == |rec.info.sizes|
  {
    && |rec.from[g]| == |rec.info.respQ[g]|
    && rec.info.sizes[g] == |rec.groups[g]|
    && (forall j :: 0 <= j < |rec.from[g]| ==> ReplyOk(cfg, rec.from[g][j], rec.attrs, rec.info.respQ[g][j]))
  }

  ghost predicate RecordShape(cfg: Cfg, rec: Record) {
    && Usable(rec.groups) && rec.attrs != []
    && |rec.groups| == |rec.from| == |rec.info.respQ| == |rec.info.sizes|
    && rec.info.op == Get && rec.info.cols == |rec.attrs|
    && Valid(rec.info) && rec.info.resp.errs == []
    && (forall g :: 0 <= g < |rec.groups| ==> GroupRecOk(cfg, rec, g))
  }

  ghost predicate RecordOk(cfg: Cfg, s: Net, r: Router, i: nat) {
    i in s.rtr(r).infos ==>
      var rec := s.rtr(r).infos[i];
      && i < s.rtr(r).next
      && cfg.home(rec.src) == r
      && (rec.src, rec.comm) in s.rtr(r).comms && s.rtr(r).comms[(rec.src, rec.comm)] == rec.groups
      && rec.respId in s.side(rec.src).asked && s.side(rec.src).asked[rec.respId] == Want(rec.comm, rec.attrs)
      && RecordShape(cfg, rec) && 0 < rec.info.pending
  }

  ghost predicate QueryOk(s: Net, r: Router, e: DownEvent) {
    e.Query? ==>
      && e.id in s.rtr(r).infos
      && e.grp < |s.rtr(r).infos[e.id].groups|
      && e.attrs == s.rtr(r).infos[e.id].attrs
      && e.comm == s.rtr(r).infos[e.id].comm
  }

  ghost predicate TokenOk(cfg: Cfg, s: Net, r: Router, m: Name, t: Token) {
    && t.id in s.rtr(r).infos
    && t.grp < |s.rtr(r).infos[t.id].groups|
    && t.from == m
    && ReplyOk(cfg, m, s.rtr(r).infos[t.id].attrs, t.reply)
  }

  ghost predicate JobOk(cfg: Cfg, s: Net, m: Name, k: nat) {
    k in s.srv(m).fini ==>
      var job := s.srv(m).fini[k];
      && job.id in s.rtr(job.rtr).infos
      && job.grp < |s.rtr(job.rtr).infos[job.id].groups|
      && job.attrs == s.rtr(job.rtr).infos[job.id].attrs
      && cfg.remote(m, job.attrs) && Willing(cfg, m, job.attrs)
      && k in s.side(Daemon(m)).asked && s.side(Daemon(m)).asked[k].attrs == job.attrs
  }

  ghost predicate CircuitOk(cfg: Cfg, s: Net, r: Router, m: Name) {
    && (forall k :: 0 <= k < |s.fwd(r, m)| ==> QueryOk(s, r, s.fwd(r, m)[k]))
    && (forall k :: 0 <= k < |s.back(r, m)| ==> TokenOk(cfg, s, r, m, s.back(r, m)[k]))
  }

  /**
    Where the queries of group g of record i to server m are: travelling out, at the server,
    travelling back, or queued.
   */
  ghost function Places(s: Net, r: Router, i: nat, g: nat, m: Name): nat
    requires i in s.rtr(r).infos && g < |s.rtr(r).infos[i].from|
  {
    Count(s.fwd(r, m), IsQuery(i, g)) + Count(s.back(r, m), IsToken(i, g))
    + |JobsFor(s.srv(m).fini, r, i, g)| + multiset(s.rtr(r).infos[i].from[g])[m]
  }

  ghost predicate Balance(s: Net, r: Router, i: nat, g: nat, m: Name) {
    i in s.rtr(r).infos && g < |s.rtr(r).infos[i].groups| == |s.rtr(r).infos[i].from| ==>
      Places(s, r, i, g, m) == multiset(s.rtr(r).infos[i].groups[g])[m]
  }

  /** Where read k of context c is: on its way to the router, in a record, on its way back, or processed. */
  ghost function Stages(cfg: Cfg, s: Net, c: Client, k: nat): nat {
    Count(s.side(c).up, IsAsk(k)) + |RecordsFor(s.rtr(cfg.home(c)).infos, c, k)|
    + Count(s.side(c).down, IsAnswer(k)) + Count(s.side(c).done, IsAnswer(k))
  }

  ghost predicate ClientBalance(cfg: Cfg, s: Net, c: Client, k: nat) {
    Stages(cfg, s, c, k) == if k in s.side(c).asked then 1 else 0
  }

  ghost predicate AnswerOk(cfg: Cfg, s: Net, c: Client, a: Answer)
    requires Widths(cfg)
  {
    && a.id in s.side(c).asked
    && var want := s.side(c).asked[a.id];
    && want.comm in s.registry
    && var groups := s.registry[want.comm].groups;
    && |a.resp.rows| == |groups| == |a.resp.stamps|
    && a.resp.errs == [] && GroupsFit(cfg, groups, want.attrs)
    && (forall g :: 0 <= g < |groups| ==>
          a.resp.rows[g] == Expected(cfg, groups[g], want.attrs) && |a.resp.stamps[g]| == |want.attrs|)
  }

  ghost predicate SideOk(cfg: Cfg, s: Net, c: Client)
    requires Widths(cfg)
  {
    var x := s.side(c);
    && (forall k: nat :: k in x.asked <==> k < x.next)
    && (forall k :: k in x.asked ==>
          x.asked[k].comm in s.registry && s.registry[x.asked[k].comm].owner == c && x.asked[k].attrs != [])
    && (forall k: nat :: k in x.waiting <==> k in x.asked && Count(x.done, IsAnswer(k)) == 0)
    && (forall j :: 0 <= j < |x.down| ==> AnswerOk(cfg, s, c, x.down[j]))
    && (forall j :: 0 <= j < |x.done| ==> AnswerOk(cfg, s, c, x.done[j]))
  }

  /** A server's outstanding jobs are the outstanding reads of its own context, all through one communicator. */
  ghost predicate DaemonOk(cfg: Cfg, s: Net, m: Name) {
    && s.srv(m).fini.Keys == s.side(Daemon(m)).waiting
    && (s.srv(m).own.Some? ==>
          s.srv(m).own.value in s.registry && s.registry[s.srv(m).own.value] == Comm(Daemon(m), [cfg.members(m)]))
    && (forall k :: k in s.side(Daemon(m)).asked ==>
          (s.srv(m).own.Some? && s.side(Daemon(m)).asked[k].comm == s.srv(m).own.value))
    && (forall k :: JobOk(cfg, s, m, k))
  }

  ghost predicate Inv(cfg: Cfg, s: Net)
    requires Good(cfg)
  {
    && RegistryOk(s)
    && (forall c :: UpOk(cfg, s, c))
    && (forall c :: SideOk(cfg, s, c))
    && (forall c, k: nat :: ClientBalance(cfg, s, c, k))
    && (forall r: Router :: TableOk(cfg, s, r))
    && (forall r: Router, c, comm :: MembersOk(s, r, c, comm))
    && (forall r: Router, i: nat :: RecordOk(cfg, s, r, i))
    && (forall r: Router, m :: DownOk(s, r, m) && CircuitOk(cfg, s, r, m))
    && (forall m :: ServerCommsOk(cfg, s, m) && DaemonOk(cfg, s, m))
    && (forall r: Router, i: nat, g: nat, m :: Balance(s, r, i, g, m))
  }

  lemma InitialInv(cfg: Cfg)
    requires Good(cfg)
    ensures Inv(cfg, Initial())
  {
    var s := Initial();
    forall c, k: nat ensures ClientBalance(cfg, s, c, k) {
      assert RecordsFor(s.rtr(cfg.home(c)).infos, c, k) == {};
    }
  }

  // ----- every lookup of a step is met -----

  lemma StepDefined(cfg: Cfg, s: Net, step: Step)
    requires Good(cfg) && Inv(cfg, s) && Enabled(cfg, s, step) && Asserted(cfg, s, step)
    ensures Defined(cfg, s, step)
  {
    match step
    case Use(_, _, _, _) =>
    case AtRouter(c) =>
      assert UpOk(cfg, s, c);
    case AtServer(r, m, _, _) =>
      assert DownOk(s, r, m);
    case AtReply(r, m) =>
      var t := s.back(r, m)[0];
      assert CircuitOk(cfg, s, r, m) && TokenOk(cfg, s, r, m, t);
      TokenHasRoom(cfg, s, r, m);
    case Deliver(c) =>
      var a := s.side(c).down[0];
      assert SideOk(cfg, s, c) && AnswerOk(cfg, s, c, a);
      assert ClientBalance(cfg, s, c, a.id);
      CountSome(s.side(c).down, IsAnswer(a.id), 0);
      assert Usable(s.registry[s.side(c).asked[a.id].comm].groups);
      if c.Daemon? { assert DaemonOk(cfg, s, c.name); }
  }

  /** The group a reply is meant for still waits for a reply. */
  lemma TokenHasRoom(cfg: Cfg, s: Net, r: Router, m: Name)
    requires Good(cfg) && Inv(cfg, s) && s.back(r, m) != []
    ensures Defined(cfg, s, AtReply(r, m))
  {
    var t := s.back(r, m)[0];
    assert CircuitOk(cfg, s, r, m) && TokenOk(cfg, s, r, m, t);
    assert RecordOk(cfg, s, r, t.id);
    var rec := s.rtr(r).infos[t.id];
    assert GroupRecOk(cfg, rec, t.grp);
    CountSome(s.back(r, m), IsToken(t.id, t.grp), 0);
    assert Balance(s, r, t.id, t.grp, m);
    forall n ensures multiset(rec.from[t.grp])[n] <= multiset(rec.groups[t.grp])[n] {
      assert Balance(s, r, t.id, t.grp, n);
    }
    StrictSubMultiset(multiset(rec.from[t.grp]), multiset(rec.groups[t.grp]), m);
    assert |multiset(rec.from[t.grp])| == |rec.from[t.grp]|;
    assert |multiset(rec.groups[t.grp])| == |rec.groups[t.grp]|;
  }

  lemma StrictSubMultiset<T>(a: multiset<T>, b: multiset<T>, x: T)
    requires forall y :: a[y] <= b[y]
    requires a[x] < b[x]
    ensures |a| < |b|
  {
    assert b == a + (b - a);
    assert x in b - a;
  }
}
