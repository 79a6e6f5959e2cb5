/**
  A client context: how it cuts an attribute tree, shares one communicator
  between objects with the same remote part, reads its own devices, and creates
  a communicator on first use.
 */
module Contexts {
  import opened Names
  import opened Gather
  import opened Circuits
  import opened AttrTree
  import opened Serving

  lemma {:induction false} KidsOneMore(cfg: Config, root: Name, o: Name, a: Attr, kids: seq<string>, j: nat)
    requires WellFormed(cfg) && j < |kids| && |o| < cfg.depth
    ensures TraverseKids(cfg, root, o, a, kids[..j + 1])
         == Join(TraverseKids(cfg, root, o, a, kids[..j]), Traverse(cfg, root, Child(o, kids[j]), a))
    decreases j
  {
    if j == 0 {
      assert kids[..1][1..] == [] && kids[..1][0] == kids[0] && kids[..0] == [];
      var t := Traverse(cfg, root, Child(o, kids[0]), a);
      assert Join(t, Cut([], {})) == t && Join(Cut([], {}), t) == t;
    } else {
      var rest := kids[1..];
      KidsOneMore(cfg, root, o, a, rest, j - 1);
      assert kids[..j + 1][1..] == rest[..j] && kids[..j][1..] == rest[..j - 1] && rest[j - 1] == kids[j];
      JoinAssoc(Traverse(cfg, root, Child(o, kids[0]), a), TraverseKids(cfg, root, o, a, rest[..j - 1]),
                Traverse(cfg, root, Child(o, kids[j]), a));
    }
  }

  lemma JoinAssoc(x: Cut, y: Cut, z: Cut)
    ensures Join(x, Join(y, z)) == Join(Join(x, y), z)
  {
    assert x.local + (y.local + z.local) == (x.local + y.local) + z.local;
    assert x.remote + (y.remote + z.remote) == (x.remote + y.remote) + z.remote;
  }

  /** DistCntxt. */
  class DistCntxt {
    const cfg: Config
    const rootName: Name
    /** m_deviceMap: the one handle of each device that was opened. */
    var deviceMap: map<Device, nat>
    var openCount: nat
    /** m_commMap: one communicator for each set of remote objects. */
    var commMap: map<set<Name>, nat>
    var currentCommID: nat

    /** Handles and communicator ids are given out once. */
    ghost predicate Valid()
      reads this
    {
      && WellFormed(cfg)
      && (forall d :: d in deviceMap ==> deviceMap[d] < openCount)
      && (forall d, e :: d in deviceMap && e in deviceMap && deviceMap[d] == deviceMap[e] ==> d == e)
      && (forall s :: s in commMap ==> commMap[s] < currentCommID)
      && (forall s, t :: s in commMap && t in commMap && commMap[s] == commMap[t] ==> s == t)
    }

    constructor (cfg: Config, rootName: Name)
      requires WellFormed(cfg)
      ensures Valid() && this.cfg == cfg && this.rootName == rootName && deviceMap == map[] && commMap == map[]
    {
      this.cfg, this.rootName := cfg, rootName;
      deviceMap, openCount, commMap, currentCommID := map[], 0, map[], 1;
    }

    /** The devices behind a list of handles. */
    ghost predicate Handles(devs: seq<Device>, handles: seq<nat>)
      reads this
    {
      |devs| == |handles| && forall k :: 0 <= k < |devs| ==> devs[k] in deviceMap && deviceMap[devs[k]] == handles[k]
    }

    /** Every device that was open still has its handle. */
    ghost predicate Extends(before: map<Device, nat>)
      reads this
    {
      forall d :: d in before ==> d in deviceMap && deviceMap[d] == before[d]
    }

    method OpenDevices(devs: seq<Device>, before: seq<nat>, ghost had: seq<Device>) returns (local: seq<nat>)
      requires Valid() && Handles(had, before)
      modifies this`deviceMap, this`openCount
      ensures Valid() && Handles(had + devs, local) && Extends(old(deviceMap))
    {
      local := before;
      for i := 0 to |devs|
        invariant Valid() && Handles(had + devs[..i], local) && Extends(old(deviceMap))
      {
        if devs[i] !in deviceMap { deviceMap, openCount := deviceMap[devs[i] := openCount], openCount + 1; }
        assert had + devs[..i + 1] == (had + devs[..i]) + [devs[i]];
        local := local + [deviceMap[devs[i]]];
      }
      assert devs[..|devs|] == devs;
    }

    /**
      What was collected: the devices had before and those of the cut, the remote names before and
      those of the cut.
     */
    ghost predicate Collected(cut: Cut, had: seq<Device>, names: set<Name>, local: seq<nat>, remote: set<Name>)
      reads this
    {
      Handles(had + cut.local, local) && remote == names + cut.remote
    }

    /** traverse: local and remote are what the caller collected so far. */
    method TraverseInto(o: Name, a: Attr, local: seq<nat>, remote: set<Name>, ghost had: seq<Device>)
      returns (allLocal: seq<nat>, allRemote: set<Name>)
      requires Valid() && Handles(had, local)
      modifies this`deviceMap, this`openCount
      ensures Valid() && Extends(old(deviceMap))
      ensures Collected(Traverse(cfg, rootName, o, a), had, remote, allLocal, allRemote)
      decreases cfg.depth - |o|, 1
    {
      if HasServer(cfg, o) && o != rootName {
        assert had + [] == had;
        return local, remote + {o};
      }
      var src := SourceOf(cfg, o, a);
      allLocal := OpenDevices(src.devs, local, had);
      allRemote := remote;
      ghost var here := had + src.devs;
      assert here + [] == here && remote + {} == remote && src.kids[..0] == [];
      for j := 0 to |src.kids|
        invariant Valid() && Extends(old(deviceMap))
        invariant Collected(TraverseKids(cfg, rootName, o, a, src.kids[..j]), here, remote, allLocal, allRemote)
      {
        allLocal, allRemote := VisitKid(o, a, src.kids, j, allLocal, allRemote, here, remote);
      }
      assert src.kids[..|src.kids|] == src.kids;
      CollectedHere(src.devs, TraverseKids(cfg, rootName, o, a, src.kids), had, remote, allLocal, allRemote);
    }

    lemma CollectedHere(devs: seq<Device>, kids: Cut, had: seq<Device>, names: set<Name>, local: seq<nat>,
                        remote: set<Name>)
      requires Collected(kids, had + devs, names, local, remote)
      ensures Collected(Join(Cut(devs, {}), kids), had, names, local, remote)
    {
      assert had + (devs + kids.local) == (had + devs) + kids.local;
      assert {} + kids.remote == kids.remote;
    }

    method VisitKid(o: Name, a: Attr, kids: seq<string>, j: nat, local: seq<nat>, remote: set<Name>,
                    ghost had: seq<Device>, ghost names: set<Name>)
      returns (allLocal: seq<nat>, allRemote: set<Name>)
      requires Valid() && j < |kids| && |o| < cfg.depth
      requires Collected(TraverseKids(cfg, rootName, o, a, kids[..j]), had, names, local, remote)
      modifies this`deviceMap, this`openCount
      ensures Valid() && Extends(old(deviceMap))
      ensures Collected(TraverseKids(cfg, rootName, o, a, kids[..j + 1]), had, names, allLocal, allRemote)
      decreases cfg.depth - |o|, 0
    {
      ghost var sofar := TraverseKids(cfg, rootName, o, a, kids[..j]);
      ghost var more := Traverse(cfg, rootName, Child(o, kids[j]), a);
      allLocal, allRemote := TraverseInto(Child(o, kids[j]), a, local, remote, had + sofar.local);
      KidsOneMore(cfg, rootName, o, a, kids, j);
      assert (had + sofar.local) + more.local == had + (sofar.local + more.local);
      assert (names + sofar.remote) + more.remote == names + (sofar.remote + more.remote);
    }

    /** getCommunicator: the same set of objects always gets the same communicator. */
    method GetCommunicator(objects: set<Name>) returns (id: nat)
      requires Valid()
      modifies this`commMap, this`currentCommID
      ensures Valid() && objects in commMap && id == commMap[objects]
      ensures commMap == if objects in old(commMap) then old(commMap) else old(commMap)[objects := id]
    {
      if objects !in commMap {
        commMap, currentCommID := commMap[objects := currentCommID], currentCommID + 1;
      }
      id := commMap[objects];
    }

    /** initAttr, for attributes whose operation is SUM or absent. */
    method InitAttr(o: Name, a: Attr) returns (devices: seq<nat>, comm: Option<nat>)
      requires Valid()
      modifies this
      ensures Valid()
      ensures Handles(InfoOf(cfg, rootName, o, a).devices, devices)
      ensures var want := InfoOf(cfg, rootName, o, a).comm;
              if want.None? then comm == None else want.value in commMap && comm == Some(commMap[want.value])
    {
      devices, comm := [], None;
      if (o, a) in cfg.sources {
        var remote: set<Name>;
        devices, remote := TraverseInto(o, a, [], {}, []);
        assert [] + Traverse(cfg, rootName, o, a).local == Traverse(cfg, rootName, o, a).local;
        assert {} + Traverse(cfg, rootName, o, a).remote == Traverse(cfg, rootName, o, a).remote;
        if remote != {} {
          var id := GetCommunicator(remote);
          comm := Some(id);
        }
      }
    }
  }

  // ----- reading own devices -----

  /** sumOp. */
  method SumOp(values: seq<real>) returns (out: real)
    ensures out == SumAt(Entries(values), 0)
  {
    var tmp := 0.0;
    ghost var rows := Entries(values);
    for i := 0 to |values|
      invariant tmp == SumAt(rows[..i], 0)
    {
      assert rows[..i + 1][..i] == rows[..i] && rows[..i] + [] == rows[..i];
      SumAtRemove(rows[..i + 1], i, 0);
      tmp := tmp + values[i];
    }
    assert rows[..|rows|] == rows;
    out := tmp;
  }

  /** attrGetValuesDevice; None for the error of the first device that fails. */
  method AttrGetValuesDevice(hw: Hardware, a: Attr, devs: seq<Device>) returns (value: Option<real>)
    ensures value == if AllOk(hw.ok, a, devs) then Some(SumDevs(hw.val, a, devs)) else None
  {
    var values: seq<real> := [];
    for i := 0 to |devs|
      invariant |values| == i && forall k :: 0 <= k < i ==> hw.ok(devs[k], a) && values[k] == hw.val(devs[k], a)
    {
      if !hw.ok(devs[i], a) { return None; }
      values := values + [hw.val(devs[i], a)];
    }
    assert values == Readings(hw.val, a, devs);
    SumDevsIsSum(hw.val, a, devs);
    var sum := SumOp(values);
    return Some(sum);
  }

  /** The attributes of one object as a server's context has them. */
  ghost predicate InfosOf(cfg: Config, x: Name, attrs: seq<Attr>, infos: seq<AttrInfo>)
    requires WellFormed(cfg)
  {
    |infos| == |attrs| && forall i :: 0 <= i < |attrs| ==> infos[i] == InfoOf(cfg, x, x, attrs[i])
  }

  /** Where Object::attrGetValues breaks off. */
  ghost predicate Reads(hw: Hardware, a: Attr, info: AttrInfo) {
    info.IsValid() && AllOk(hw.ok, a, info.devices)
  }

  ghost predicate StopsAt(hw: Hardware, attrs: seq<Attr>, infos: seq<AttrInfo>, n: nat)
    requires |infos| == |attrs|
  {
    && n <= |attrs|
    && (forall i :: 0 <= i < n ==> Reads(hw, attrs[i], infos[i]))
    && (n < |attrs| ==> !Reads(hw, attrs[n], infos[n]))
  }

  /** Object::attrGetValues into a zeroed buffer: the values, and whether the status got an error. */
  method AttrGetValues(hw: Hardware, attrs: seq<Attr>, infos: seq<AttrInfo>) returns (row: Row, failed: bool,
                       ghost n: nat)
    requires |infos| == |attrs|
    ensures StopsAt(hw, attrs, infos, n) && (failed <==> n < |attrs|)
    ensures |row| == |attrs|
    ensures forall i :: 0 <= i < |attrs| ==>
        row[i] == if i < n then SumDevs(hw.val, attrs[i], infos[i].devices) else 0.0
  {
    row := Zeros(|attrs|);
    failed, n := false, 0;
    for i := 0 to |attrs|
      invariant n == i && !failed && |row| == |attrs|
      invariant forall j :: 0 <= j < i ==>
          Reads(hw, attrs[j], infos[j]) && row[j] == SumDevs(hw.val, attrs[j], infos[j].devices)
      invariant forall j :: i <= j < |attrs| ==> row[j] == 0.0
    {
      if !infos[i].IsValid() { return row, true, i; }
      var v := AttrGetValuesDevice(hw, attrs[i], infos[i].devices);
      if v.None? { return row, true, i; }
      row := row[i := v.value];
      n := n + 1;
    }
  }

  /** Without servers to ask, the buffer is the row a server owes. */
  lemma {:induction false} LocalRowIs(cfg: Config, hw: Hardware, x: Name, attrs: seq<Attr>, infos: seq<AttrInfo>,
                                      n: nat, row: Row)
    requires WellFormed(cfg) && x in cfg.located && x != [] && InfosOf(cfg, x, attrs, infos)
    requires forall i :: 0 <= i < |attrs| ==> infos[i].comm.None?
    requires StopsAt(hw, attrs, infos, n) && |row| == |attrs|
    requires forall i :: 0 <= i < |attrs| ==>
        row[i] == if i < n then SumDevs(hw.val, attrs[i], infos[i].devices) else 0.0
    ensures row == LocalRow(cfg, hw, x, attrs)
  {
    forall i | 0 <= i < |attrs| ensures infos[i].devices == SourceOf(cfg, x, attrs[i]).devs
    {
      LocatedCut(cfg, x, attrs[i]);
    }
    forall i | 0 <= i < |attrs| ensures row[i] == LocalRow(cfg, hw, x, attrs)[i] {
      if i < n {
        forall j | 0 <= j <= i ensures Works(cfg, hw.ok, x, attrs[j]) { assert Reads(hw, attrs[j], infos[j]); }
        LocalRowAt(cfg, hw, x, attrs, i);
      } else {
        assert !Reads(hw, attrs[n], infos[n]);
        LocalRowStops(cfg, hw, x, attrs, n, i);
      }
    }
  }

  // ----- communicators -----

  /** The event channel of a context. */
  class Channel {
    var sent: seq<UpEvent>

    method SendEvent(e: UpEvent)
      modifies this
      ensures sent == old(sent) + [e]
    {
      sent := sent + [e];
    }
  }

  /** DistComm, and with eager creation DistGrpComm. */
  class DistComm {
    const commID: CommId
    const groups: Groups
    /** m_ec, once it is set. */
    var ec: Option<Channel>

    /** The constructor of DistComm sends nothing. */
    constructor (commID: CommId, objects: seq<Name>)
      ensures this.commID == commID && groups == [objects] && ec == None
    {
      this.commID, groups, ec := commID, [objects], None;
    }

    /** The constructor of DistGrpComm creates the communicator at once. */
    constructor ForGroup(commID: CommId, groups: Groups, chan: Channel)
      modifies chan
      ensures this.commID == commID && this.groups == groups && ec == Some(chan)
      ensures chan.sent == old(chan.sent) + [Create(commID, groups)]
    {
      this.commID, this.groups, ec := commID, groups, Some(chan);
      new;
      chan.SendEvent(Create(commID, groups));
    }

    method GetChannel(chan: Channel) returns (c: Channel)
      requires ec == None || ec == Some(chan)
      modifies this, chan
      ensures c == chan && ec == Some(chan)
      ensures chan.sent == old(chan.sent) + if old(ec).None? then [Create(commID, groups)] else []
    {
      if ec.Some? { return ec.value; }
      ec := Some(chan);
      chan.SendEvent(Create(commID, groups));
      return chan;
    }

    /** getValues: created on first use, then asked. */
    method GetValues(chan: Channel, id: nat, attrs: seq<Attr>)
      requires ec == None || ec == Some(chan)
      modifies this, chan
      ensures ec == Some(chan)
      ensures chan.sent == old(chan.sent) + (if old(ec).Some? then []
          else [Create(commID, groups)]) + [Ask(commID, id, attrs)]
    {
      var c := GetChannel(chan);
      c.SendEvent(Ask(commID, id, attrs));
    }
  }
}
