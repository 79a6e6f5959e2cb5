/** One read by an application: when it succeeds, and when its values are the flat sums. */
module AppRead {
  import opened Names
  import opened Gather
  import opened AttrTree
  import opened Serving

  /** Every attribute is valid, and the application's own devices can be read. */
  ghost predicate ReadsHere(cfg: Config, ok: (Device, Attr) -> bool, root: Name, o: Name, attrs: seq<Attr>)
    requires WellFormed(cfg)
  {
    forall i :: 0 <= i < |attrs| ==>
      InfoOf(cfg, root, o, attrs[i]).IsValid() && AllOk(ok, attrs[i], InfoOf(cfg, root, o, attrs[i]).devices)
  }

  /** The objects it asks servers for; none when it reads its own devices. */
  ghost function AskedFor(cfg: Config, root: Name, o: Name, attrs: seq<Attr>): set<Name>
    requires WellFormed(cfg)
  {
    if attrs == [] || InfoOf(cfg, root, o, attrs[0]).comm.None? then {} else InfoOf(cfg, root, o, attrs[0]).comm.value
  }

  ghost function GroupRows(cfg: Config, hw: Hardware, attrs: seq<Attr>, names: seq<Name>): (r: Option<seq<Row>>)
    requires WellFormed(cfg)
    ensures r.Some? ==> |r.value| == |names| && forall j :: 0 <= j < |names| ==> |r.value[j]| == |attrs|
  {
    if names == [] then Some([])
    else
      var first := Served(cfg, hw, names[0], attrs);
      var rest := GroupRows(cfg, hw, attrs, names[1..]);
      if first.Some? && rest.Some? && |first.value| == |attrs| then Some([first.value] + rest.value) else None
  }

  /**
    What a read of the attributes of object o gives in a context rooted at root.
    None when an assert fails, here or at a server, when an attribute is invalid
    or an own device fails (both are reported), or when nobody serves an object.
   */
  ghost function ReadAt(cfg: Config, hw: Hardware, root: Name, o: Name, attrs: seq<Attr>): Option<Row>
    requires WellFormed(cfg)
  {
    if !Constructs(cfg, root, o) || !SameComm(cfg, root, o, attrs) || !ReadsHere(cfg, hw.ok, root, o, attrs) then None
    else if InfoOf(cfg, root, o, attrs[0]).comm.None? then
      Some(seq(|attrs|, i requires 0 <= i < |attrs| => SumDevs(hw.val, attrs[i],
          InfoOf(cfg, root, o, attrs[i]).devices)))
    else
      var rows := GroupRows(cfg, hw, attrs, Listing(AskedFor(cfg, root, o, attrs)));
      if rows.None? then None else Some(ColumnSum(|attrs|, rows.value))
  }

  ghost function OwedRows(cfg: Config, hw: Hardware, attrs: seq<Attr>, names: seq<Name>): (r: seq<Row>)
    requires WellFormed(cfg)
    ensures |r| == |names| && forall j :: 0 <= j < |names| ==> |r[j]| == |attrs|
  {
    seq(|names|, j requires 0 <= j < |names| => Owed(cfg, hw, names[j], attrs))
  }

  lemma {:induction false} GroupRowsIff(cfg: Config, hw: Hardware, attrs: seq<Attr>, names: seq<Name>)
    requires WellFormed(cfg)
    ensures GroupRows(cfg, hw, attrs, names).Some? <==> forall n :: n in names ==> Fit(cfg, n, attrs)
    ensures GroupRows(cfg, hw, attrs, names).Some? ==>
        GroupRows(cfg, hw, attrs, names).value == OwedRows(cfg, hw, attrs, names)
  {
    if names != [] {
      ServedIff(cfg, hw, names[0], attrs);
      GroupRowsIff(cfg, hw, attrs, names[1..]);
      assert forall n :: n in names <==> n == names[0] || n in names[1..];
      assert OwedRows(cfg, hw, attrs, names) == [Owed(cfg, hw, names[0], attrs)] + OwedRows(cfg, hw, attrs, names[1..]);
    }
  }

  /**
    A read succeeds exactly when the asserts about the object hold, every
    attribute is valid and read in the same way, the own devices work, and every
    server asked is fit.
   */
  lemma DistributedReadIff(cfg: Config, hw: Hardware, root: Name, o: Name, attrs: seq<Attr>)
    requires WellFormed(cfg)
    ensures ReadAt(cfg, hw, root, o, attrs).Some? <==>
              && Constructs(cfg, root, o) && SameComm(cfg, root, o, attrs) && ReadsHere(cfg, hw.ok, root, o, attrs)
              && forall n :: n in AskedFor(cfg, root, o, attrs) ==> Fit(cfg, n, attrs)
  {
    GroupRowsIff(cfg, hw, attrs, Listing(AskedFor(cfg, root, o, attrs)));
  }

  /** The flat sum of an attribute, on the application's own devices or below the objects it asks servers for. */
  lemma FlatOfRead(cfg: Config, val: Reading, root: Name, o: Name, attrs: seq<Attr>, i: nat)
    requires WellFormed(cfg) && Constructs(cfg, root, o) && SameComm(cfg, root, o, attrs) && i < |attrs|
    requires InfoOf(cfg, root, o, attrs[i]).IsValid()
    ensures FlatSum(cfg, val, o, attrs[i])
         == if InfoOf(cfg, root, o, attrs[0]).comm.None?
             then SumDevs(val, attrs[i], InfoOf(cfg, root, o, attrs[i]).devices)
            else SumNames(cfg, val, attrs[i], Listing(AskedFor(cfg, root, o, attrs)))
  {
    CutPreservesSum(cfg, val, root, o, attrs[i]);
    var cut := Traverse(cfg, root, o, attrs[i]);
    assert InfoOf(cfg, root, o, attrs[i]).comm == InfoOf(cfg, root, o, attrs[0]).comm;
    if cut.remote == {} { assert Listing(cut.remote) == []; }
  }

  ghost predicate AllWhole(cfg: Config, ok: (Device, Attr) -> bool, names: set<Name>, attrs: seq<Attr>, i: nat)
    requires WellFormed(cfg) && i < |attrs|
  {
    forall n :: n in names ==> Whole(cfg, ok, n, attrs, i)
  }

  lemma {:induction false} RowsFlat(cfg: Config, hw: Hardware, attrs: seq<Attr>, i: nat, names: seq<Name>)
    requires WellFormed(cfg) && i < |attrs| && forall n :: n in names ==>
        Fit(cfg, n, attrs) && Whole(cfg, hw.ok, n, attrs, i)
    ensures SumAt(OwedRows(cfg, hw, attrs, names), i) == SumNames(cfg, hw.val, attrs[i], names)
  {
    if names != [] {
      OwedIsFlat(cfg, hw, names[0], attrs, i);
      RowsFlat(cfg, hw, attrs, i, names[1..]);
      assert OwedRows(cfg, hw, attrs, names)[1..] == OwedRows(cfg, hw, attrs, names[1..]);
    }
  }

  lemma {:induction false} RowsShort(cfg: Config, ok: (Device, Attr) -> bool, attrs: seq<Attr>, i: nat,
                                     names: seq<Name>)
    requires WellFormed(cfg) && i < |attrs| && forall n :: n in names ==> Fit(cfg, n, attrs)
    ensures var owed, flat := SumAt(OwedRows(cfg, Hardware(One(), ok), attrs, names), i),
        SumNames(cfg, One(), attrs[i], names);
            owed <= flat && ((exists n :: n in names && !Whole(cfg, ok, n, attrs, i)) ==> owed < flat)
  {
    if names != [] {
      OwedShort(cfg, ok, names[0], attrs, i);
      RowsShort(cfg, ok, attrs, i, names[1..]);
      assert OwedRows(cfg, Hardware(One(), ok), attrs, names)[1..]
          == OwedRows(cfg, Hardware(One(), ok), attrs, names[1..]);
      assert forall n :: n in names <==> n == names[0] || n in names[1..];
    }
  }

  /** What the asked servers owe in column i, whatever the devices say, is what lies below them. */
  ghost predicate AlwaysFlat(cfg: Config, ok: (Device, Attr) -> bool, attrs: seq<Attr>, i: nat, names: seq<Name>)
    requires WellFormed(cfg) && i < |attrs|
  {
    forall val: Reading :: SumAt(OwedRows(cfg, Hardware(val, ok), attrs, names), i) == SumNames(cfg, val, attrs[i],
        names)
  }

  lemma RowsFlatIff(cfg: Config, ok: (Device, Attr) -> bool, attrs: seq<Attr>, i: nat, names: seq<Name>)
    requires WellFormed(cfg) && i < |attrs| && forall n :: n in names ==> Fit(cfg, n, attrs)
    ensures AlwaysFlat(cfg, ok, attrs, i, names) <==> forall n :: n in names ==> Whole(cfg, ok, n, attrs, i)
  {
    if forall n :: n in names ==> Whole(cfg, ok, n, attrs, i) {
      forall val: Reading
        ensures SumAt(OwedRows(cfg, Hardware(val, ok), attrs, names), i) == SumNames(cfg, val, attrs[i], names)
      {
        RowsFlat(cfg, Hardware(val, ok), attrs, i, names);
      }
    } else {
      RowsShort(cfg, ok, attrs, i, names);
      assert SumAt(OwedRows(cfg, Hardware(One(), ok), attrs, names), i) != SumNames(cfg, One(), attrs[i], names);
    }
  }

  /** The value a successful read gives for attribute i. */
  lemma ReadValue(cfg: Config, hw: Hardware, root: Name, o: Name, attrs: seq<Attr>, i: nat)
    requires WellFormed(cfg) && ReadAt(cfg, hw, root, o, attrs).Some? && i < |attrs|
    ensures |ReadAt(cfg, hw, root, o, attrs).value| == |attrs|
    ensures ReadAt(cfg, hw, root, o, attrs).value[i]
         == if InfoOf(cfg, root, o, attrs[0]).comm.None? then FlatSum(cfg, hw.val, o, attrs[i])
            else SumAt(OwedRows(cfg, hw, attrs, Listing(AskedFor(cfg, root, o, attrs))), i)
  {
    var names := Listing(AskedFor(cfg, root, o, attrs));
    GroupRowsIff(cfg, hw, attrs, names);
    FlatOfRead(cfg, hw.val, root, o, attrs, i);
    ColumnSumIsSum(|attrs|, OwedRows(cfg, hw, attrs, names), i);
  }

  /**
    A successful read gives the flat sum of attribute i, whatever the devices
    say, exactly when no device that counts fails at any server asked, nor comes
    after an attribute that cannot be read there.
   */
  lemma FlatIffWhole(cfg: Config, ok: (Device, Attr) -> bool, root: Name, o: Name, attrs: seq<Attr>, i: nat)
    requires WellFormed(cfg) && i < |attrs| && ReadAt(cfg, Hardware(One(), ok), root, o, attrs).Some?
    ensures (forall val: Reading ::
               var r := ReadAt(cfg, Hardware(val, ok), root, o, attrs);
               r.Some? && |r.value| == |attrs| && r.value[i] == FlatSum(cfg, val, o, attrs[i]))
       <==> AllWhole(cfg, ok, AskedFor(cfg, root, o, attrs), attrs, i)
  {
    var names := Listing(AskedFor(cfg, root, o, attrs));
    DistributedReadIff(cfg, Hardware(One(), ok), root, o, attrs);
    forall val: Reading
      ensures var r := ReadAt(cfg, Hardware(val, ok), root, o, attrs);
              && r.Some? && |r.value| == |attrs|
              && (r.value[i] == FlatSum(cfg, val, o, attrs[i]) <==>
                    InfoOf(cfg, root, o, attrs[0]).comm.None?
                    || SumAt(OwedRows(cfg, Hardware(val, ok), attrs, names), i) == SumNames(cfg, val, attrs[i], names))
    {
      DistributedReadIff(cfg, Hardware(val, ok), root, o, attrs);
      ReadValue(cfg, Hardware(val, ok), root, o, attrs, i);
      FlatOfRead(cfg, val, root, o, attrs, i);
    }
    RowsFlatIff(cfg, ok, attrs, i, names);
  }
}
