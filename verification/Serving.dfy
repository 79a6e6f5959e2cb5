/**
  What the servers of a deployment owe: the row each returns for a list of
  attributes, when it can return one at all, and that it is the flat sum.
 */
module Serving {
  import opened Names
  import opened Gather
  import opened Circuits
  import opened AttrTree

  /** A context rooted at a located object reads its own devices and leaves every child to the child's server. */
  lemma LocatedCut(cfg: Config, x: Name, a: Attr)
    requires WellFormed(cfg) && x in cfg.located && x != []
    ensures Traverse(cfg, x, x, a).local == SourceOf(cfg, x, a).devs
    ensures Traverse(cfg, x, x, a).remote == set k | k in SourceOf(cfg, x, a).kids :: Child(x, k)
  {
    var kids := SourceOf(cfg, x, a).kids;
    LocatedKids(cfg, x, a, kids);
    assert SourceOf(cfg, x, a).devs + [] == SourceOf(cfg, x, a).devs;
    assert {} + TraverseKids(cfg, x, x, a, kids).remote == TraverseKids(cfg, x, x, a, kids).remote;
  }

  lemma {:induction false} LocatedKids(cfg: Config, x: Name, a: Attr, kids: seq<string>)
    requires WellFormed(cfg) && x in cfg.located && x != [] && (kids != [] ==> |x| < cfg.depth)
    ensures TraverseKids(cfg, x, x, a, kids) == Cut([], set k | k in kids :: Child(x, k))
  {
    if kids != [] {
      var c := Child(x, kids[0]);
      assert c[..|c| - 1] == x;
      assert HasServer(cfg, c) && c != x;
      LocatedKids(cfg, x, a, kids[1..]);
      assert Traverse(cfg, x, c, a) == Cut([], {c});
      var rest := set k | k in kids[1..] :: Child(x, k);
      assert kids == [kids[0]] + kids[1..];
      assert (set k | k in kids :: Child(x, k)) == {c} + rest;
    } else {
      assert (set k | k in kids :: Child(x, k)) == {};
    }
  }

  /** What the devices would say, and which of them can be read. */
  datatype Hardware = Hardware(val: Reading, ok: (Device, Attr) -> bool)

  ghost predicate AllOk(ok: (Device, Attr) -> bool, a: Attr, devs: seq<Device>) {
    forall k :: 0 <= k < |devs| ==> ok(devs[k], a)
  }

  function One(): Reading { (d: Device, a: Attr) => 1.0 }

  lemma {:induction false} OneEach(devs: seq<Device>, a: Attr)
    ensures SumDevs(One(), a, devs) == |devs| as real
  {
    if devs != [] { OneEach(devs[1..], a); }
  }

  // ----- what the code asserts about an object, and what that asks of the configuration -----

  /** AttrInfo: the devices and the communicator one attribute of an object is read through. */
  datatype AttrInfo = AttrInfo(devices: seq<Device>, comm: Option<set<Name>>) {
    predicate IsValid() { devices != [] || comm.Some? }
  }

  /** What initAttr finds: nothing for an attribute without an operation. */
  function InfoOf(cfg: Config, root: Name, o: Name, a: Attr): AttrInfo
    requires WellFormed(cfg)
  {
    if (o, a) !in cfg.sources then AttrInfo([], None)
    else
      var cut := Traverse(cfg, root, o, a);
      AttrInfo(cut.local, if cut.remote == {} then None else Some(cut.remote))
  }

  /** The asserts of the DistObject constructor: devices or a communicator but not both, and one communicator only. */
  ghost predicate Constructs(cfg: Config, root: Name, o: Name)
    requires WellFormed(cfg)
  {
    && (forall a: Attr :: InfoOf(cfg, root, o, a).comm.None? || InfoOf(cfg, root, o, a).devices == [])
    && (forall a: Attr, b: Attr :: InfoOf(cfg, root, o, a).comm.Some? && InfoOf(cfg, root, o, b).comm.Some? ==>
          InfoOf(cfg, root, o, a).comm == InfoOf(cfg, root, o, b).comm)
  }

  /** The assert of DistObject::attrGetValues: the communicator of the first attribute is that of all the others. */
  ghost predicate SameComm(cfg: Config, root: Name, o: Name, attrs: seq<Attr>)
    requires WellFormed(cfg)
  {
    attrs != [] && forall i :: 0 <= i < |attrs| ==>
        InfoOf(cfg, root, o, attrs[i]).comm == InfoOf(cfg, root, o, attrs[0]).comm
  }

  ghost function Kids(cfg: Config, x: Name, a: Attr): set<string> {
    set k | k in SourceOf(cfg, x, a).kids
  }

  /**
    What a deployer can check of a located object: devices or children but not both, and the same
    children throughout.
   */
  ghost predicate Starts(cfg: Config, x: Name) {
    && x in cfg.located && x != []
    && (forall a: Attr :: SourceOf(cfg, x, a).devs == [] || Kids(cfg, x, a) == {})
    && (forall a: Attr, b: Attr :: Kids(cfg, x, a) == {} || Kids(cfg, x, b) == {} || Kids(cfg, x, a) == Kids(cfg, x, b))
  }

  /** What a caller can check of a request: all its attributes have the same children. */
  ghost predicate Alike(cfg: Config, x: Name, attrs: seq<Attr>) {
    attrs != [] && forall i :: 0 <= i < |attrs| ==> Kids(cfg, x, attrs[i]) == Kids(cfg, x, attrs[0])
  }

  /** The server and every server it asks starts, and reads all the attributes in the same way. */
  ghost predicate Fit(cfg: Config, x: Name, attrs: seq<Attr>)
    requires WellFormed(cfg)
    decreases cfg.depth - |x|
  {
    Starts(cfg, x) && Alike(cfg, x, attrs) && forall k :: k in SourceOf(cfg, x, attrs[0]).kids ==>
        Fit(cfg, Child(x, k), attrs)
  }

  /** The info of a located root object: its own devices, and its children when it has some. */
  lemma InfoIs(cfg: Config, x: Name, a: Attr)
    requires WellFormed(cfg) && x in cfg.located && x != []
    ensures InfoOf(cfg, x, x, a).devices == SourceOf(cfg, x, a).devs
    ensures InfoOf(cfg, x, x, a).comm == if Kids(cfg, x, a) == {} then None else Some(Traverse(cfg, x, x, a).remote)
    ensures Traverse(cfg, x, x, a).remote == {} <==> Kids(cfg, x, a) == {}
  {
    LocatedCut(cfg, x, a);
    var remote := Traverse(cfg, x, x, a).remote;
    if Kids(cfg, x, a) == {} {
      assert forall k :: k in SourceOf(cfg, x, a).kids ==> k in Kids(cfg, x, a);
      assert remote == {};
    } else {
      var k :| k in Kids(cfg, x, a);
      assert Child(x, k) in remote;
    }
  }

  lemma RemoteIs(cfg: Config, x: Name, a: Attr)
    requires WellFormed(cfg) && x in cfg.located && x != []
    ensures forall n :: n in Traverse(cfg, x, x, a).remote <==>
              n != [] && n[..|n| - 1] == x && n[|n| - 1] in Kids(cfg, x, a)
  {
    LocatedCut(cfg, x, a);
    forall n ensures n in Traverse(cfg, x, x, a).remote <==>
      n != [] && n[..|n| - 1] == x && n[|n| - 1] in Kids(cfg, x, a)
    {
      if n in Traverse(cfg, x, x, a).remote { var k :| k in SourceOf(cfg, x, a).kids && n == Child(x, k); }
      if n != [] && n[..|n| - 1] == x && n[|n| - 1] in Kids(cfg, x, a) { assert n == Child(x, n[|n| - 1]); }
    }
  }

  lemma SameKids(cfg: Config, x: Name, a: Attr, b: Attr)
    requires WellFormed(cfg) && x in cfg.located && x != []
    ensures Traverse(cfg, x, x, a).remote == Traverse(cfg, x, x, b).remote <==> Kids(cfg, x, a) == Kids(cfg, x, b)
  {
    var r, s := Traverse(cfg, x, x, a).remote, Traverse(cfg, x, x, b).remote;
    RemoteIs(cfg, x, a);
    RemoteIs(cfg, x, b);
    hide Traverse, WellFormed, Kids;
    if r == s {
      forall k ensures k in Kids(cfg, x, a) <==> k in Kids(cfg, x, b) {
        var n := Child(x, k);
        assert n[..|n| - 1] == x && n[|n| - 1] == k;
        assert n in r <==> n in s;
      }
    }
  }

  /**
    The asserts of the constructor hold for the root object of a server exactly when a deployer
    would say it starts.
   */
  lemma StartsIff(cfg: Config, x: Name)
    requires WellFormed(cfg) && x in cfg.located && x != []
    ensures Constructs(cfg, x, x) <==> Starts(cfg, x)
  {
    forall a: Attr ensures InfoOf(cfg, x, x, a).devices == SourceOf(cfg, x, a).devs
      ensures InfoOf(cfg, x, x, a).comm == if Kids(cfg, x, a) == {} then None else Some(Traverse(cfg, x, x, a).remote)
    {
      InfoIs(cfg, x, a);
    }
    forall a: Attr, b: Attr
      ensures Traverse(cfg, x, x, a).remote == Traverse(cfg, x, x, b).remote <==> Kids(cfg, x, a) == Kids(cfg, x, b)
    {
      SameKids(cfg, x, a, b);
    }
  }

  /** A request passes the assert about its attributes exactly when a caller would say they are alike. */
  lemma AlikeIff(cfg: Config, x: Name, attrs: seq<Attr>)
    requires WellFormed(cfg) && x in cfg.located && x != []
    ensures SameComm(cfg, x, x, attrs) <==> Alike(cfg, x, attrs)
  {
    forall i | 0 <= i < |attrs|
      ensures InfoOf(cfg, x, x, attrs[i]).comm == InfoOf(cfg, x, x, attrs[0]).comm <==>
          Kids(cfg, x, attrs[i]) == Kids(cfg, x, attrs[0])
    {
      InfoIs(cfg, x, attrs[i]);
      InfoIs(cfg, x, attrs[0]);
      SameKids(cfg, x, attrs[i], attrs[0]);
    }
  }

  // ----- the row a server owes -----

  /** The server can read the attribute on devices of its own. */
  ghost predicate Works(cfg: Config, ok: (Device, Attr) -> bool, x: Name, a: Attr) {
    SourceOf(cfg, x, a).devs != [] && AllOk(ok, a, SourceOf(cfg, x, a).devs)
  }

  /** Object::attrGetValues at a server without children: it stops at the first attribute it cannot read. */
  ghost function LocalRow(cfg: Config, hw: Hardware, x: Name, attrs: seq<Attr>): (r: Row)
    ensures |r| == |attrs|
  {
    if attrs == [] then []
    else if !Works(cfg, hw.ok, x, attrs[0]) then Zeros(|attrs|)
    else [SumDevs(hw.val, attrs[0], SourceOf(cfg, x, attrs[0]).devs)] + LocalRow(cfg, hw, x, attrs[1..])
  }

  /** The row server x returns for a list of attributes. */
  ghost function Owed(cfg: Config, hw: Hardware, x: Name, attrs: seq<Attr>): (r: Row)
    requires WellFormed(cfg)
    ensures |r| == |attrs|
    decreases cfg.depth - |x|
  {
    if x !in cfg.located || x == [] || attrs == [] then Zeros(|attrs|)
    else
      var names := Listing(Traverse(cfg, x, x, attrs[0]).remote);
      if names == [] then LocalRow(cfg, hw, x, attrs)
      else
        RemoteOneDeeper(cfg, x, attrs[0]);
        ColumnSum(|attrs|, seq(|names|, j requires 0 <= j < |names| => Owed(cfg, hw, names[j], attrs)))
  }

  lemma RemoteOneDeeper(cfg: Config, x: Name, a: Attr)
    requires WellFormed(cfg) && x in cfg.located && x != [] && Traverse(cfg, x, x, a).remote != {}
    ensures |x| < cfg.depth
    ensures forall n :: n in Traverse(cfg, x, x, a).remote ==> |n| == |x| + 1
  {
    LocatedCut(cfg, x, a);
  }

  // ----- when a server can answer at all -----

  /** The row server x answers with; None when it, or a server it asks, fails an assert or was never started. */
  ghost function Served(cfg: Config, hw: Hardware, x: Name, attrs: seq<Attr>): Option<Row>
    requires WellFormed(cfg)
    decreases cfg.depth - |x|, 1
  {
    if x !in cfg.located || x == [] || !Constructs(cfg, x, x) || !SameComm(cfg, x, x, attrs) then None
    else
      var names := Listing(Traverse(cfg, x, x, attrs[0]).remote);
      if names == [] then Some(LocalRow(cfg, hw, x, attrs))
      else
        RemoteOneDeeper(cfg, x, attrs[0]);
        var rows := ServedRows(cfg, hw, x, attrs, names);
        if rows.None? then None else Some(ColumnSum(|attrs|, rows.value))
  }

  ghost function ServedRows(cfg: Config, hw: Hardware, x: Name, attrs: seq<Attr>,
                            names: seq<Name>): (r: Option<seq<Row>>)
    requires WellFormed(cfg) && (names != [] ==> |x| < cfg.depth)
    requires forall n :: n in names ==> |n| == |x| + 1
    ensures r.Some? ==> |r.value| == |names| && forall j :: 0 <= j < |names| ==> |r.value[j]| == |attrs|
    decreases cfg.depth - |x|, 0, |names|
  {
    if names == [] then Some([])
    else
      var first := Served(cfg, hw, names[0], attrs);
      var rest := ServedRows(cfg, hw, x, attrs, names[1..]);
      if first.Some? && rest.Some? && |first.value| == |attrs| then Some([first.value] + rest.value) else None
  }

  /** The names a located object leaves to servers are those of its children. */
  lemma KidNames(cfg: Config, x: Name, a: Attr)
    requires WellFormed(cfg) && x in cfg.located && x != []
    ensures var names := Listing(Traverse(cfg, x, x, a).remote);
            && (forall k :: k in SourceOf(cfg, x, a).kids ==> Child(x, k) in names)
            && (forall n :: n in names ==> exists k :: k in SourceOf(cfg, x, a).kids && n == Child(x, k))
            && (forall n :: n in names ==> |n| == |x| + 1)
            && (names != [] ==> |x| < cfg.depth)
            && (names == [] <==> Kids(cfg, x, a) == {})
  {
    LocatedCut(cfg, x, a);
    InfoIs(cfg, x, a);
    var remote := Traverse(cfg, x, x, a).remote;
    var names := Listing(remote);
    forall k | k in SourceOf(cfg, x, a).kids ensures Child(x, k) in names { assert Child(x, k) in remote; }
    forall n | n in names ensures exists k :: k in SourceOf(cfg, x, a).kids && n == Child(x, k) { assert n in remote; }
    if remote != {} { var n :| n in remote; assert n in names; }
  }

  /** A server answers exactly when it is fit, and then with the row it owes. */
  lemma {:induction false} ServedIff(cfg: Config, hw: Hardware, x: Name, attrs: seq<Attr>)
    requires WellFormed(cfg)
    ensures Served(cfg, hw, x, attrs).Some? <==> Fit(cfg, x, attrs)
    ensures Served(cfg, hw, x, attrs).Some? ==> Served(cfg, hw, x, attrs).value == Owed(cfg, hw, x, attrs)
    decreases cfg.depth - |x|, 1
  {
    if x in cfg.located && x != [] && attrs != [] {
      StartsIff(cfg, x);
      AlikeIff(cfg, x, attrs);
      KidNames(cfg, x, attrs[0]);
      var names := Listing(Traverse(cfg, x, x, attrs[0]).remote);
      if Starts(cfg, x) && Alike(cfg, x, attrs) && names != [] {
        RemoteOneDeeper(cfg, x, attrs[0]);
        ServedRowsIff(cfg, hw, x, attrs, names);
      }
    }
  }

  lemma {:induction false} ServedRowsIff(cfg: Config, hw: Hardware, x: Name, attrs: seq<Attr>, names: seq<Name>)
    requires WellFormed(cfg) && (names != [] ==> |x| < cfg.depth)
    requires forall n :: n in names ==> |n| == |x| + 1
    ensures ServedRows(cfg, hw, x, attrs, names).Some? <==> forall n :: n in names ==> Fit(cfg, n, attrs)
    ensures ServedRows(cfg, hw, x, attrs, names).Some? ==>
              ServedRows(cfg, hw, x, attrs, names).value
                  == seq(|names|, j requires 0 <= j < |names| => Owed(cfg, hw, names[j], attrs))
    decreases cfg.depth - |x|, 0, |names|
  {
    if names != [] {
      ServedIff(cfg, hw, names[0], attrs);
      ServedRowsIff(cfg, hw, x, attrs, names[1..]);
      ServedRowsStep(cfg, hw, x, attrs, names);
      hide Served, Owed, Fit, ServedRows, WellFormed;
      assert forall n :: n in names <==> n == names[0] || n in names[1..];
      RowsTail(cfg, hw, attrs, names);
    }
  }

  lemma ServedRowsStep(cfg: Config, hw: Hardware, x: Name, attrs: seq<Attr>, names: seq<Name>)
    requires WellFormed(cfg) && names != [] && |x| < cfg.depth
    requires forall n :: n in names ==> |n| == |x| + 1
    ensures var first, rest, all := Served(cfg, hw, names[0], attrs), ServedRows(cfg, hw, x, attrs, names[1..]),
                                    ServedRows(cfg, hw, x, attrs, names);
            && (all.Some? <==> first.Some? && rest.Some? && |first.value| == |attrs|)
            && (all.Some? ==> all.value == [first.value] + rest.value)
  {
    hide Served;
  }

  // ----- several attributes at once, at a server without children -----

  lemma {:induction false} LocalRowAt(cfg: Config, hw: Hardware, x: Name, attrs: seq<Attr>, i: nat)
    requires i < |attrs| && forall j :: 0 <= j <= i ==> Works(cfg, hw.ok, x, attrs[j])
    ensures LocalRow(cfg, hw, x, attrs)[i] == SumDevs(hw.val, attrs[i], SourceOf(cfg, x, attrs[i]).devs)
  {
    if 0 < i {
      forall j | 0 <= j <= i - 1 ensures Works(cfg, hw.ok, x, attrs[1..][j]) { assert attrs[1..][j] == attrs[j + 1]; }
      assert Works(cfg, hw.ok, x, attrs[0]);
      LocalRowAt(cfg, hw, x, attrs[1..], i - 1);
    }
  }

  lemma {:induction false} LocalRowStops(cfg: Config, hw: Hardware, x: Name, attrs: seq<Attr>, j: nat, i: nat)
    requires j <= i < |attrs| && !Works(cfg, hw.ok, x, attrs[j])
    ensures LocalRow(cfg, hw, x, attrs)[i] == 0.0
  {
    if 0 < j && Works(cfg, hw.ok, x, attrs[0]) {
      assert attrs[1..][j - 1] == attrs[j];
      LocalRowStops(cfg, hw, x, attrs[1..], j - 1, i - 1);
    }
  }

  /** The value a read of one attribute by itself would put into the row. */
  ghost function Alone(cfg: Config, hw: Hardware, x: Name, a: Attr): real {
    if Works(cfg, hw.ok, x, a) then SumDevs(hw.val, a, SourceOf(cfg, x, a).devs) else 0.0
  }

  /**
    A multi-attribute read at a server gives what reads of the single attributes
    would, whatever the devices say, exactly when no attribute that can be read
    follows one that cannot.
   */
  lemma LocalRowCompleteIff(cfg: Config, ok: (Device, Attr) -> bool, x: Name, attrs: seq<Attr>)
    ensures (forall val: Reading, i :: 0 <= i < |attrs| ==>
               LocalRow(cfg, Hardware(val, ok), x, attrs)[i] == Alone(cfg, Hardware(val, ok), x, attrs[i]))
       <==> (forall j, i :: 0 <= j < i < |attrs| && !Works(cfg, ok, x, attrs[j]) ==> !Works(cfg, ok, x, attrs[i]))
  {
    if forall j, i :: 0 <= j < i < |attrs| && !Works(cfg, ok, x, attrs[j]) ==> !Works(cfg, ok, x, attrs[i]) {
      forall val: Reading, i | 0 <= i < |attrs|
        ensures LocalRow(cfg, Hardware(val, ok), x, attrs)[i] == Alone(cfg, Hardware(val, ok), x, attrs[i])
      {
        if j :| 0 <= j <= i && !Works(cfg, ok, x, attrs[j]) {
          LocalRowStops(cfg, Hardware(val, ok), x, attrs, j, i);
        } else {
          LocalRowAt(cfg, Hardware(val, ok), x, attrs, i);
        }
      }
    } else {
      var j, i :| 0 <= j < i < |attrs| && !Works(cfg, ok, x, attrs[j]) && Works(cfg, ok, x, attrs[i]);
      var hw := Hardware(One(), ok);
      LocalRowStops(cfg, hw, x, attrs, j, i);
      OneEach(SourceOf(cfg, x, attrs[i]).devs, attrs[i]);
      assert LocalRow(cfg, Hardware(One(), ok), x, attrs)[i] != Alone(cfg, Hardware(One(), ok), x, attrs[i]);
    }
  }

  // ----- when a column is the flat sum -----

  /** No device that counts for column i fails, or comes after an attribute that cannot be read, at any server below. */
  ghost predicate Whole(cfg: Config, ok: (Device, Attr) -> bool, x: Name, attrs: seq<Attr>, i: nat)
    requires WellFormed(cfg) && i < |attrs|
    decreases cfg.depth - |x|
  {
    if Kids(cfg, x, attrs[0]) == {} then
      SourceOf(cfg, x, attrs[i]).devs == [] || forall j :: 0 <= j <= i ==> Works(cfg, ok, x, attrs[j])
    else forall k :: k in SourceOf(cfg, x, attrs[0]).kids ==> Whole(cfg, ok, Child(x, k), attrs, i)
  }

  /** A fit server has the flat sum of an attribute on its own devices, or on the servers it asks. */
  lemma FlatOfFit(cfg: Config, val: Reading, x: Name, attrs: seq<Attr>, i: nat)
    requires WellFormed(cfg) && Fit(cfg, x, attrs) && i < |attrs|
    ensures var names := Listing(Traverse(cfg, x, x, attrs[0]).remote);
            FlatSum(cfg, val, x, attrs[i])
              == if names == [] then SumDevs(val, attrs[i], SourceOf(cfg, x, attrs[i]).devs)
                 else SumNames(cfg, val, attrs[i], names)
  {
    CutPreservesSum(cfg, val, x, x, attrs[i]);
    SameKids(cfg, x, attrs[i], attrs[0]);
    LocatedCut(cfg, x, attrs[i]);
    KidNames(cfg, x, attrs[0]);
    InfoIs(cfg, x, attrs[i]);
  }

  lemma OwedThroughOthers(cfg: Config, hw: Hardware, x: Name, attrs: seq<Attr>, i: nat)
    requires WellFormed(cfg) && x in cfg.located && x != [] && i < |attrs|
    requires Listing(Traverse(cfg, x, x, attrs[0]).remote) != []
    ensures var names := Listing(Traverse(cfg, x, x, attrs[0]).remote);
            Owed(cfg, hw, x, attrs)[i]
              == SumAt(seq(|names|, j requires 0 <= j < |names| => Owed(cfg, hw, names[j], attrs)), i)
  {
    var names := Listing(Traverse(cfg, x, x, attrs[0]).remote);
    var rows := seq(|names|, j requires 0 <= j < |names| => Owed(cfg, hw, names[j], attrs));
    ColumnSumIsSum(|attrs|, rows, i);
    assert Owed(cfg, hw, x, attrs) == ColumnSum(|attrs|, rows);
  }

  /** A server that asks nobody owes the sum over its devices, or 0 where it stopped before. */
  lemma OwedAlone(cfg: Config, hw: Hardware, x: Name, attrs: seq<Attr>, i: nat)
    requires WellFormed(cfg) && x in cfg.located && x != [] && i < |attrs|
    requires Listing(Traverse(cfg, x, x, attrs[0]).remote) == []
    ensures Owed(cfg, hw, x, attrs)[i]
         == if forall j :: 0 <= j <= i ==> Works(cfg, hw.ok, x, attrs[j])
            then SumDevs(hw.val, attrs[i], SourceOf(cfg, x, attrs[i]).devs) else 0.0
  {
    if forall j :: 0 <= j <= i ==> Works(cfg, hw.ok, x, attrs[j]) {
      LocalRowAt(cfg, hw, x, attrs, i);
    } else {
      var j :| 0 <= j <= i && !Works(cfg, hw.ok, x, attrs[j]);
      LocalRowStops(cfg, hw, x, attrs, j, i);
    }
  }

  /** What a fit server owes in a column that is whole is the flat sum of that attribute. */
  lemma {:induction false} OwedIsFlat(cfg: Config, hw: Hardware, x: Name, attrs: seq<Attr>, i: nat)
    requires WellFormed(cfg) && Fit(cfg, x, attrs) && i < |attrs| && Whole(cfg, hw.ok, x, attrs, i)
    ensures Owed(cfg, hw, x, attrs)[i] == FlatSum(cfg, hw.val, x, attrs[i])
    decreases cfg.depth - |x|
  {
    var names := Listing(Traverse(cfg, x, x, attrs[0]).remote);
    FlatOfFit(cfg, hw.val, x, attrs, i);
    KidNames(cfg, x, attrs[0]);
    if names == [] {
      OwedAlone(cfg, hw, x, attrs, i);
    } else {
      OwedColumn(cfg, hw, x, attrs, i, names);
      OwedThroughOthers(cfg, hw, x, attrs, i);
    }
  }

  lemma RowsTail(cfg: Config, hw: Hardware, attrs: seq<Attr>, names: seq<Name>)
    requires WellFormed(cfg) && names != []
    ensures var rows := seq(|names|, j requires 0 <= j < |names| => Owed(cfg, hw, names[j], attrs));
            && rows[0] == Owed(cfg, hw, names[0], attrs)
            && rows[1..] == seq(|names[1..]|, j requires 0 <= j < |names[1..]| => Owed(cfg, hw, names[1..][j], attrs))
            && rows == [rows[0]] + rows[1..]
  {
    hide Owed, WellFormed;
  }

  lemma {:induction false} OwedColumn(cfg: Config, hw: Hardware, x: Name, attrs: seq<Attr>, i: nat, names: seq<Name>)
    requires WellFormed(cfg) && i < |attrs| && (names != [] ==> |x| < cfg.depth)
    requires forall n :: n in names ==> Fit(cfg, n, attrs) && Whole(cfg, hw.ok, n, attrs, i) && |n| == |x| + 1
    ensures SumAt(seq(|names|, j requires 0 <= j < |names| => Owed(cfg, hw, names[j], attrs)), i)
         == SumNames(cfg, hw.val, attrs[i], names)
    decreases cfg.depth - |x|, |names|
  {
    if names != [] {
      OwedIsFlat(cfg, hw, names[0], attrs, i);
      OwedColumn(cfg, hw, x, attrs, i, names[1..]);
      hide Fit, Whole, Owed, FlatSum;
      RowsTail(cfg, hw, attrs, names);
    }
  }

  /** With every device reading 1, what is owed is never too large, and too small where the column is not whole. */
  lemma {:induction false} OwedShort(cfg: Config, ok: (Device, Attr) -> bool, x: Name, attrs: seq<Attr>, i: nat)
    requires WellFormed(cfg) && Fit(cfg, x, attrs) && i < |attrs|
    ensures var owed, flat := Owed(cfg, Hardware(One(), ok), x, attrs)[i], FlatSum(cfg, One(), x, attrs[i]);
            owed <= flat && (!Whole(cfg, ok, x, attrs, i) ==> owed < flat)
    decreases cfg.depth - |x|
  {
    var hw, names := Hardware(One(), ok), Listing(Traverse(cfg, x, x, attrs[0]).remote);
    FlatOfFit(cfg, One(), x, attrs, i);
    KidNames(cfg, x, attrs[0]);
    OneEach(SourceOf(cfg, x, attrs[i]).devs, attrs[i]);
    if names == [] {
      OwedAlone(cfg, hw, x, attrs, i);
    } else {
      AllShort(cfg, ok, x, attrs, i, names);
      OwedThroughOthers(cfg, hw, x, attrs, i);
    }
  }

  lemma {:induction false} AllShort(cfg: Config, ok: (Device, Attr) -> bool, x: Name, attrs: seq<Attr>, i: nat,
                                    names: seq<Name>)
    requires WellFormed(cfg) && i < |attrs| && (names != [] ==> |x| < cfg.depth)
    requires forall n :: n in names ==> Fit(cfg, n, attrs) && |n| == |x| + 1
    ensures var owed := SumAt(seq(|names|, j requires 0 <= j < |names| => Owed(cfg, Hardware(One(), ok), names[j],
        attrs)), i);
            var flat := SumNames(cfg, One(), attrs[i], names);
            owed <= flat && ((exists n :: n in names && !Whole(cfg, ok, n, attrs, i)) ==> owed < flat)
    decreases cfg.depth - |x|, |names|
  {
    if names != [] {
      var hw := Hardware(One(), ok);
      OwedShort(cfg, ok, names[0], attrs, i);
      AllShort(cfg, ok, x, attrs, i, names[1..]);
      var rows := seq(|names|, j requires 0 <= j < |names| => Owed(cfg, hw, names[j], attrs));
      assert rows[1..] == seq(|names[1..]|, j requires 0 <= j < |names[1..]| => Owed(cfg, hw, names[1..][j], attrs));
      assert forall n :: n in names <==> n == names[0] || n in names[1..];
    }
  }

  /**
    A column of what a fit server owes is the flat sum, whatever the devices
    say, exactly when it is whole: a server puts 0 for a device that fails, and
    for every attribute after it, and reports no error.
   */
  lemma OwedFlatIff(cfg: Config, ok: (Device, Attr) -> bool, x: Name, attrs: seq<Attr>, i: nat)
    requires WellFormed(cfg) && Fit(cfg, x, attrs) && i < |attrs|
    ensures (forall val: Reading :: Owed(cfg, Hardware(val, ok), x, attrs)[i] == FlatSum(cfg, val, x, attrs[i]))
       <==> Whole(cfg, ok, x, attrs, i)
  {
    if Whole(cfg, ok, x, attrs, i) {
      forall val: Reading ensures Owed(cfg, Hardware(val, ok), x, attrs)[i] == FlatSum(cfg, val, x, attrs[i]) {
        OwedIsFlat(cfg, Hardware(val, ok), x, attrs, i);
      }
    } else {
      OwedShort(cfg, ok, x, attrs, i);
      assert Owed(cfg, Hardware(One(), ok), x, attrs)[i] != FlatSum(cfg, One(), x, attrs[i]);
    }
  }

  // ----- the deployment the network runs on -----

  /** The server reads the attributes through other servers. */
  ghost predicate AsksOthers(cfg: Config, x: Name, attrs: seq<Attr>)
    requires WellFormed(cfg)
  {
    Starts(cfg, x) && attrs != [] && Traverse(cfg, x, x, attrs[0]).remote != {}
  }

  /** The objects of the one communicator of a server's root object. */
  ghost function MembersOf(cfg: Config, x: Name): seq<Name>
    requires WellFormed(cfg)
  {
    if exists a: Attr :: AsksOthers(cfg, x, [a]) then
      var a: Attr :| AsksOthers(cfg, x, [a]);
      Listing(Traverse(cfg, x, x, a).remote)
    else []
  }

  /** One server for each located object. */
  ghost function Deployment(cfg: Config, hw: Hardware, home: Client -> Router): Cfg
    requires WellFormed(cfg)
  {
    Cfg(home,
        set x | x in cfg.located && x != [],
        (x, attrs) => AsksOthers(cfg, x, attrs),
        x => MembersOf(cfg, x),
        (x, attrs) => Owed(cfg, hw, x, attrs),
        x => Constructs(cfg, x, x),
        (x, attrs) => SameComm(cfg, x, x, attrs),
        (x, attrs) => Fit(cfg, x, attrs))
  }

  lemma MembersAre(cfg: Config, x: Name, attrs: seq<Attr>)
    requires WellFormed(cfg) && AsksOthers(cfg, x, attrs)
    ensures MembersOf(cfg, x) == Listing(Traverse(cfg, x, x, attrs[0]).remote)
    ensures MembersOf(cfg, x) != []
  {
    assert AsksOthers(cfg, x, [attrs[0]]);
    var a: Attr :| AsksOthers(cfg, x, [a]) && MembersOf(cfg, x) == Listing(Traverse(cfg, x, x, a).remote);
    InfoIs(cfg, x, a);
    InfoIs(cfg, x, attrs[0]);
    SameKids(cfg, x, a, attrs[0]);
    var n :| n in Traverse(cfg, x, x, attrs[0]).remote;
    assert n in Listing(Traverse(cfg, x, x, attrs[0]).remote);
  }

  /** In a deployment a server that asks others owes the sum of what they owe, and is fit exactly when they are. */
  lemma DeploymentGood(cfg: Config, hw: Hardware, home: Client -> Router)
    requires WellFormed(cfg)
    ensures Good(Deployment(cfg, hw, home))
  {
    var d := Deployment(cfg, hw, home);
    assert Widths(d);
    hide Owed, Fit, Constructs, SameComm, AsksOthers, MembersOf, Expected, Willing, MembersFit;
    forall m, attrs | d.remote(m, attrs) ensures d.members(m) != []
        && d.row(m, attrs) == Expected(d, d.members(m), attrs) {
      OwedExpected(cfg, hw, home, m, attrs);
    }
    forall m, attrs
      ensures d.fit(m, attrs) <==> Willing(d, m, attrs) && (d.remote(m, attrs) ==> MembersFit(d, d.members(m), attrs))
    {
      FitStep(cfg, hw, home, m, attrs);
    }
  }

  lemma OwedExpected(cfg: Config, hw: Hardware, home: Client -> Router, m: Name, attrs: seq<Attr>)
    requires WellFormed(cfg) && Widths(Deployment(cfg, hw, home)) && Deployment(cfg, hw, home).remote(m, attrs)
    ensures var d := Deployment(cfg, hw, home);
        d.members(m) != [] && d.row(m, attrs) == Expected(d, d.members(m), attrs)
  {
    DeploymentIs(cfg, hw, home, m, attrs);
    MembersAre(cfg, m, attrs);
    OwedMembers(cfg, hw, m, attrs);
    RowsAre(cfg, hw, home, MembersOf(cfg, m), attrs);
    hide Owed, Fit, Constructs, SameComm, AsksOthers, MembersOf, Deployment, WellFormed, ColumnSum, Traverse;
  }

  lemma RowsAre(cfg: Config, hw: Hardware, home: Client -> Router, names: seq<Name>, attrs: seq<Attr>)
    requires WellFormed(cfg)
    ensures RowsFor(Deployment(cfg, hw, home), names, attrs)
         == seq(|names|, j requires 0 <= j < |names| => Owed(cfg, hw, names[j], attrs))
  {
    hide Owed, Fit, Constructs, SameComm, AsksOthers, MembersOf;
  }

  lemma OwedMembers(cfg: Config, hw: Hardware, m: Name, attrs: seq<Attr>)
    requires WellFormed(cfg) && AsksOthers(cfg, m, attrs)
    ensures var names := Listing(Traverse(cfg, m, m, attrs[0]).remote);
            Owed(cfg, hw, m, attrs) == ColumnSum(|attrs|,
                seq(|names|, j requires 0 <= j < |names| => Owed(cfg, hw, names[j], attrs)))
  {
    var names := Listing(Traverse(cfg, m, m, attrs[0]).remote);
    var n :| n in Traverse(cfg, m, m, attrs[0]).remote;
    assert n in names;
  }

  /** One step of Fit, in terms of the asserts and of the one communicator. */
  lemma FitIs(cfg: Config, m: Name, attrs: seq<Attr>)
    requires WellFormed(cfg)
    ensures Fit(cfg, m, attrs) <==>
              && m in cfg.located && m != [] && Constructs(cfg, m, m) && SameComm(cfg, m, m, attrs)
              && (AsksOthers(cfg, m, attrs) ==> forall n :: n in MembersOf(cfg, m) ==> Fit(cfg, n, attrs))
  {
    if m in cfg.located && m != [] && attrs != [] {
      StartsIff(cfg, m);
      AlikeIff(cfg, m, attrs);
      KidNames(cfg, m, attrs[0]);
      InfoIs(cfg, m, attrs[0]);
      if AsksOthers(cfg, m, attrs) { MembersAre(cfg, m, attrs); }
    }
  }

  lemma DeploymentIs(cfg: Config, hw: Hardware, home: Client -> Router, m: Name, attrs: seq<Attr>)
    requires WellFormed(cfg)
    ensures var d := Deployment(cfg, hw, home);
            && (m in d.started <==> m in cfg.located && m != []) && (d.opens(m) <==> Constructs(cfg, m, m))
            && (d.allows(m, attrs) <==> SameComm(cfg, m, m, attrs))
                  && (d.remote(m, attrs) <==> AsksOthers(cfg, m, attrs))
            && d.members(m) == MembersOf(cfg, m) && (forall n :: d.fit(n, attrs) <==> Fit(cfg, n, attrs))
            && d.row(m, attrs) == Owed(cfg, hw, m, attrs)
  {
    hide Owed, Fit, Constructs, SameComm, AsksOthers, MembersOf;
  }

  lemma MembersAll(d: Cfg, names: seq<Name>, attrs: seq<Attr>)
    ensures MembersFit(d, names, attrs) <==> forall n :: n in names ==> d.fit(n, attrs)
  {
  }

  lemma FitStep(cfg: Config, hw: Hardware, home: Client -> Router, m: Name, attrs: seq<Attr>)
    requires WellFormed(cfg)
    ensures var d := Deployment(cfg, hw, home);
            d.fit(m, attrs) <==> Willing(d, m, attrs) && (d.remote(m, attrs) ==> MembersFit(d, d.members(m), attrs))
  {
    FitIs(cfg, m, attrs);
    DeploymentIs(cfg, hw, home, m, attrs);
    MembersAll(Deployment(cfg, hw, home), MembersOf(cfg, m), attrs);
    hide Owed, Fit, Constructs, SameComm, AsksOthers, MembersOf, Deployment, WellFormed, MembersFit;
  }

  ghost function Height(cfg: Config, x: Name): nat { if |x| <= cfg.depth then cfg.depth - |x| + 1 else 0 }

  /** Servers only ask servers deeper in the tree. */
  lemma DeploymentRanked(cfg: Config, hw: Hardware, home: Client -> Router, m: Name, attrs: seq<Attr>, j: nat)
    requires WellFormed(cfg)
    requires Deployment(cfg, hw, home).remote(m, attrs) && j < |Deployment(cfg, hw, home).members(m)|
    ensures Height(cfg, Deployment(cfg, hw, home).members(m)[j]) < Height(cfg, m)
  {
    MembersAre(cfg, m, attrs);
    KidNames(cfg, m, attrs[0]);
    assert MembersOf(cfg, m)[j] in Listing(Traverse(cfg, m, m, attrs[0]).remote);
  }
}
