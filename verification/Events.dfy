/** The communicator events, the router event that carries them, and their place in a byte buffer. */
module Events {
  import opened Names
  import opened Serial

  type Text = seq<Byte>

  /** enum EventType, without NotSet. */
  datatype Kind =
    | CommCreateKind | CommDestroyKind | CommReqKind | CommRespKind | CommLogReqKind | CommLogRespKind
    | SamplesReqKind | SamplesRespKind | ServerConnectKind | RouterKind

  datatype Head = Head(id: U64, code: U32, status: I32)

  datatype CommHead = CommHead(head: Head, commId: U64, op: I32)

  datatype Event =
    | CommCreate(comm: CommHead, members: seq<seq<Text>>)
    | CommDestroy(comm: CommHead)
    | CommReq(comm: CommHead, setValues: seq<U64>, attrName: seq<I32>, valueOp: seq<I32>, grpIndex: U64)
    | CommResp(comm: CommHead, timeStamp: seq<seq<U64>>, value: seq<seq<U64>>, grpIndex: U64,
               errValue: seq<I32>, errAttr: seq<I32>, errObj: seq<Text>)
    | CommLogReq(comm: CommHead, attr: I32)
    | CommLogResp(comm: CommHead, errValue: seq<I32>, errAttr: seq<I32>, errObj: seq<Text>)
    | SamplesReq(comm: CommHead, count: U32, period: U64, startTime: U64, attr: I32)
    | SamplesResp(comm: CommHead, errObj: seq<Text>, errAttr: seq<I32>, errValue: seq<I32>,
                  data: seq<U64>, count: U32, startTime: U64)
    | ServerConnect(head: Head, name: Text)
    | RouterEvent(head: Head, dest: U64, src: U64, eventType: U32, payload: seq<Byte>)

  function KindOf(e: Event): Kind {
    match e
    case CommCreate(_, _) => CommCreateKind
    case CommDestroy(_) => CommDestroyKind
    case CommReq(_, _, _, _, _) => CommReqKind
    case CommResp(_, _, _, _, _, _, _) => CommRespKind
    case CommLogReq(_, _) => CommLogReqKind
    case CommLogResp(_, _, _, _) => CommLogRespKind
    case SamplesReq(_, _, _, _, _) => SamplesReqKind
    case SamplesResp(_, _, _, _, _, _, _) => SamplesRespKind
    case ServerConnect(_, _) => ServerConnectKind
    case RouterEvent(_, _, _, _, _) => RouterKind
  }

  function Code(k: Kind): U32 {
    match k
    case CommCreateKind => 1
    case CommDestroyKind => 2
    case CommReqKind => 3
    case CommRespKind => 4
    case CommLogReqKind => 5
    case CommLogRespKind => 6
    case SamplesReqKind => 7
    case SamplesRespKind => 8
    case ServerConnectKind => 9
    case RouterKind => 10
  }

  function KindOfCode(n: U32): Option<Kind> {
    if n == 1 then Some(CommCreateKind)
    else if n == 2 then Some(CommDestroyKind)
    else if n == 3 then Some(CommReqKind)
    else if n == 4 then Some(CommRespKind)
    else if n == 5 then Some(CommLogReqKind)
    else if n == 6 then Some(CommLogRespKind)
    else if n == 7 then Some(SamplesReqKind)
    else if n == 8 then Some(SamplesRespKind)
    else if n == 9 then Some(ServerConnectKind)
    else if n == 10 then Some(RouterKind)
    else None
  }

  function HeadOf(e: Event): Head {
    if e.ServerConnect? || e.RouterEvent? then e.head else e.comm.head
  }

  // ----- fields as items -----

  function N64(v: U64): Item { Num(8, v) }
  function N32(v: U32): Item { Num(4, v) }
  /** The cast to uint64_t sign-extends; the four bytes written are the two's complement. */
  function Signed(v: I32): Item { Num(4, v % 0x1_0000_0000) }
  function List<T>(v: seq<T>, f: T -> Item): Item { Vec(seq(|v|, k requires 0 <= k < |v| => f(v[k]))) }
  function Longs(v: seq<U64>): Item { List(v, N64) }
  function Ints(v: seq<I32>): Item { List(v, Signed) }
  function Octet(c: Byte): Item { Num(1, c) }
  function Chars(t: Text): Item { Str(t) }
  function Texts(v: seq<Text>): Item { List(v, Chars) }

  function AsU64(x: Item): U64 { if x.Num? && x.value < 0x1_0000_0000_0000_0000 then x.value else 0 }
  function AsU32(x: Item): U32 { if x.Num? && x.value < 0x1_0000_0000 then x.value else 0 }
  /** The cast back from the unsigned value read. */
  function AsI32(x: Item): I32 {
    var v := AsU32(x);
    if v < 0x8000_0000 then v else v - 0x1_0000_0000
  }
  function AsByte(x: Item): Byte { if x.Num? && x.value < 256 then x.value else 0 }
  function AsText(x: Item): Text { if x.Str? then x.chars else [] }
  function AsList<T>(x: Item, f: Item -> T): seq<T> {
    if x.Vec? then seq(|x.elems|, k requires 0 <= k < |x.elems| => f(x.elems[k])) else []
  }
  function AsLongs(x: Item): seq<U64> { AsList(x, AsU64) }
  function AsInts(x: Item): seq<I32> { AsList(x, AsI32) }
  function AsTexts(x: Item): seq<Text> { AsList(x, AsText) }

  /** Negative codes survive the unsigned detour. */
  lemma SignedBack(v: I32)
    ensures AsI32(Signed(v)) == v
  {
  }

  lemma ListBack<T>(v: seq<T>, f: T -> Item, g: Item -> T)
    requires forall k :: 0 <= k < |v| ==> g(f(v[k])) == v[k]
    ensures AsList(List(v, f), g) == v
  {
  }

  lemma LongsBack(v: seq<U64>)
    ensures AsLongs(Longs(v)) == v
  {
    ListBack(v, N64, AsU64);
  }

  lemma IntsBack(v: seq<I32>)
    ensures AsInts(Ints(v)) == v
  {
    forall k | 0 <= k < |v| ensures AsI32(Signed(v[k])) == v[k] { SignedBack(v[k]); }
    ListBack(v, Signed, AsI32);
  }

  lemma TextsBack(v: seq<Text>)
    ensures AsTexts(Texts(v)) == v
  {
    ListBack(v, Chars, AsText);
  }

  lemma LongRowsBack(v: seq<seq<U64>>)
    ensures AsList(List(v, Longs), AsLongs) == v
  {
    forall k | 0 <= k < |v| ensures AsLongs(Longs(v[k])) == v[k] { LongsBack(v[k]); }
    ListBack(v, Longs, AsLongs);
  }

  lemma TextRowsBack(v: seq<seq<Text>>)
    ensures AsList(List(v, Texts), AsTexts) == v
  {
    forall k | 0 <= k < |v| ensures AsTexts(Texts(v[k])) == v[k] { TextsBack(v[k]); }
    ListBack(v, Texts, AsTexts);
  }

  // ----- what serialize_out writes, in its order -----

  function HeadItems(h: Head): seq<Item> { [N64(h.id), N32(h.code), Signed(h.status)] }

  function CommItems(c: CommHead): seq<Item> { HeadItems(c.head) + [N64(c.commId), Signed(c.op)] }

  function Written(e: Event): seq<Item> {
    match e
    case CommCreate(c, members) => CommItems(c) + [List(members, Texts)]
    case CommDestroy(c) => CommItems(c)
    case CommReq(c, setValues, attrName, valueOp, grpIndex) =>
      CommItems(c) + [Longs(setValues), Ints(attrName), Ints(valueOp), N64(grpIndex)]
    case CommResp(c, timeStamp, value, grpIndex, errValue, errAttr, errObj) =>
      CommItems(c) + [List(timeStamp, Longs), List(value, Longs), N64(grpIndex),
                      Ints(errValue), Ints(errAttr), Texts(errObj)]
    case CommLogReq(c, attr) => CommItems(c) + [Signed(attr)]
    case CommLogResp(c, errValue, errAttr, errObj) => CommItems(c) + [Ints(errValue), Ints(errAttr), Texts(errObj)]
    case SamplesReq(c, count, period, startTime, attr) =>
      CommItems(c) + [N32(count), N64(period), N64(startTime), Signed(attr)]
    case SamplesResp(c, errObj, errAttr, errValue, data, count, startTime) =>
      CommItems(c) + [Texts(errObj), Ints(errAttr), Ints(errValue), Longs(data), N32(count), N64(startTime)]
    case ServerConnect(h, name) => HeadItems(h) + [Chars(name)]
    case RouterEvent(h, dest, src, eventType, payload) =>
      HeadItems(h) + [N64(dest), N64(src), N32(eventType), List(payload, Octet)]
  }

  // ----- what serialize_in reads, in its order -----

  const INTS := VecOf(NumOf(4))
  const LONGS := VecOf(NumOf(8))
  const TEXTS := VecOf(StrOf)

  function HeadShapes(): seq<Shape> { [NumOf(4), NumOf(4), NumOf(8)] }

  function CommShapes(): seq<Shape> { [NumOf(4), NumOf(8)] + HeadShapes() }

  function Expected(k: Kind): seq<Shape> {
    match k
    case CommCreateKind => [VecOf(TEXTS)] + CommShapes()
    case CommDestroyKind => CommShapes()
    case CommReqKind => [NumOf(8), INTS, INTS, LONGS] + CommShapes()
    case CommRespKind => [TEXTS, INTS, INTS, NumOf(8), VecOf(LONGS), VecOf(LONGS)] + CommShapes()
    case CommLogReqKind => [NumOf(4)] + CommShapes()
    case CommLogRespKind => [TEXTS, INTS, INTS] + CommShapes()
    case SamplesReqKind => [NumOf(4), NumOf(8), NumOf(8), NumOf(4)] + CommShapes()
    case SamplesRespKind => [NumOf(8), NumOf(4), LONGS, INTS, INTS, TEXTS] + CommShapes()
    case ServerConnectKind => [StrOf] + HeadShapes()
    case RouterKind => [VecOf(NumOf(1)), NumOf(4), NumOf(8), NumOf(8)] + HeadShapes()
  }

  function HeadFrom(r: seq<Item>): Head
    requires |r| == 3
  {
    Head(AsU64(r[2]), AsU32(r[1]), AsI32(r[0]))
  }

  function CommFrom(r: seq<Item>): CommHead
    requires |r| == 5
  {
    CommHead(HeadFrom(r[2..]), AsU64(r[1]), AsI32(r[0]))
  }

  /** The fields each item read is stored in. */
  function Stored(k: Kind, r: seq<Item>): Event
    requires |r| == |Expected(k)|
  {
    match k
    case CommCreateKind => CommCreate(CommFrom(r[1..]), AsList(r[0], AsTexts))
    case CommDestroyKind => CommDestroy(CommFrom(r))
    case CommReqKind => CommReq(CommFrom(r[4..]), AsLongs(r[3]), AsInts(r[2]), AsInts(r[1]), AsU64(r[0]))
    case CommRespKind =>
      CommResp(CommFrom(r[6..]), AsList(r[5], AsLongs), AsList(r[4], AsLongs), AsU64(r[3]),
               AsInts(r[2]), AsInts(r[1]), AsTexts(r[0]))
    case CommLogReqKind => CommLogReq(CommFrom(r[1..]), AsI32(r[0]))
    case CommLogRespKind => CommLogResp(CommFrom(r[3..]), AsInts(r[2]), AsInts(r[1]), AsTexts(r[0]))
    case SamplesReqKind => SamplesReq(CommFrom(r[4..]), AsU32(r[3]), AsU64(r[2]), AsU64(r[1]), AsI32(r[0]))
    case SamplesRespKind =>
      SamplesResp(CommFrom(r[6..]), AsTexts(r[5]), AsInts(r[4]), AsInts(r[3]), AsLongs(r[2]), AsU32(r[1]), AsU64(r[0]))
    case ServerConnectKind => ServerConnect(HeadFrom(r[1..]), AsText(r[0]))
    case RouterKind => RouterEvent(HeadFrom(r[4..]), AsU64(r[3]), AsU64(r[2]), AsU32(r[1]), AsList(r[0], AsByte))
  }

  // ----- encoding and decoding -----

  function EncAll(items: seq<Item>): seq<Byte> {
    if items == [] then [] else EncAll(items[..|items| - 1]) + Enc(items[|items| - 1])
  }

  function DecAll(shapes: seq<Shape>, buf: seq<Byte>): (r: Option<(seq<Item>, seq<Byte>)>)
    ensures r.Some? ==> |r.value.0| == |shapes|
  {
    if shapes == [] then Some(([], buf))
    else
      var first := Dec(shapes[0], buf);
      if first.None? then None
      else
        var rest := DecAll(shapes[1..], first.value.1);
        if rest.None? then None else Some(([first.value.0] + rest.value.0, rest.value.1))
  }

  function Encode(e: Event): seq<Byte> { EncAll(Written(e)) }

  lemma {:induction false} OctetsFirst(payload: seq<Byte>, n: nat)
    requires n <= |payload|
    ensures EncFirst(List(payload, Octet), n) == payload[..n]
  {
    if n != 0 {
      OctetsFirst(payload, n - 1);
      assert Enc(Octet(payload[n - 1])) == [payload[n - 1]] + Bytes(payload[n - 1] / 256, 0);
    }
  }

  lemma EncMore(items: seq<Item>, x: Item)
    ensures EncAll(items + [x]) == EncAll(items) + Enc(x)
  {
    assert (items + [x])[..|items|] == items;
  }

  /** A router event on the wire: header, destination, source, type, and the event it carries with its length. */
  lemma RouterEventLayout(h: Head, dest: U64, src: U64, eventType: U32, payload: seq<Byte>)
    ensures Encode(RouterEvent(h, dest, src, eventType, payload))
         == Bytes(h.id, 8) + Bytes(h.code, 4) + Bytes(h.status % 0x1_0000_0000, 4)
            + Bytes(dest, 8) + Bytes(src, 8) + Bytes(eventType, 4) + (payload + Bytes(|payload|, 8))
  {
    OctetsFirst(payload, |payload|);
    assert payload[..|payload|] == payload;
    var last := List(payload, Octet);
    assert Enc(last) == payload + Bytes(|payload|, 8);
    WrittenIs(h, dest, src, eventType, payload);
    hide EncAll, Bytes, EncFirst, Written;
    EncSeven(N64(h.id), N32(h.code), Signed(h.status), N64(dest), N64(src), N32(eventType), last);
  }

  lemma WrittenIs(h: Head, dest: U64, src: U64, eventType: U32, payload: seq<Byte>)
    ensures Written(RouterEvent(h, dest, src, eventType, payload))
         == [N64(h.id), N32(h.code), Signed(h.status), N64(dest), N64(src), N32(eventType), List(payload, Octet)]
  {
  }

  lemma EncSeven(a: Item, b: Item, c: Item, d: Item, e: Item, f: Item, g: Item)
    ensures EncAll([a, b, c, d, e, f, g]) == Enc(a) + Enc(b) + Enc(c) + Enc(d) + Enc(e) + Enc(f) + Enc(g)
  {
    EncMore([a, b, c, d, e, f], g);
    EncMore([a, b, c, d, e], f);
    EncMore([a, b, c, d], e);
    EncMore([a, b, c], d);
    EncMore([a, b], c);
    EncMore([a], b);
    EncMore([], a);
    EncNothing();
    hide EncAll, Enc;
    assert [a, b, c, d, e, f, g] == [a, b, c, d, e, f] + [g] && [a, b, c, d, e, f] == [a, b, c, d, e] + [f];
    assert [a, b, c, d, e] == [a, b, c, d] + [e] && [a, b, c, d] == [a, b, c] + [d] && [a, b, c] == [a, b] + [c];
    assert [a, b] == [a] + [b] && [a] == [] + [a] && [] + Enc(a) == Enc(a);
  }

  lemma EncNothing()
    ensures EncAll([]) == []
  {
  }

  function Decode(k: Kind, buf: seq<Byte>): Option<(Event, seq<Byte>)> {
    var r := DecAll(Expected(k), buf);
    if r.None? then None else Some((Stored(k, r.value.0), r.value.1))
  }

  function Reverse<T>(s: seq<T>): (r: seq<T>)
    ensures |r| == |s| && forall k :: 0 <= k < |s| ==> r[k] == s[|s| - 1 - k]
  {
    seq(|s|, k requires 0 <= k < |s| => s[|s| - 1 - k])
  }

  /** The items written are, read from the end, of the types read. */
  predicate FitsAll(items: seq<Item>, shapes: seq<Shape>) {
    |items| == |shapes| && forall k :: 0 <= k < |items| ==> Fits(items[k], Reverse(shapes)[k])
  }

  lemma ReverseLast<T>(s: seq<T>)
    requires s != []
    ensures Reverse(s) == [s[|s| - 1]] + Reverse(s[..|s| - 1])
  {
  }

  lemma {:induction false} AllRoundTrip(items: seq<Item>, shapes: seq<Shape>, pre: seq<Byte>)
    requires FitsAll(items, shapes)
    ensures DecAll(shapes, pre + EncAll(items)) == Some((Reverse(items), pre))
  {
    if items == [] {
      assert pre + [] == pre;
    } else {
      var n := |items| - 1;
      var init, last := items[..n], items[n];
      Fold(pre, EncAll(init), Enc(last));
      assert Fits(last, Reverse(shapes)[n]);
      ItemRoundTrip(last, shapes[0], pre + EncAll(init));
      forall k | 0 <= k < n ensures Fits(init[k], Reverse(shapes[1..])[k])
      {
        assert Fits(items[k], Reverse(shapes)[k]);
      }
      AllRoundTrip(init, shapes[1..], pre);
      ReverseLast(items);
    }
  }

  lemma HeadBack(h: Head, r: seq<Item>)
    requires r == Reverse(HeadItems(h))
    ensures HeadFrom(r) == h
  {
  }

  lemma CommBack(c: CommHead, r: seq<Item>)
    requires r == Reverse(CommItems(c))
    ensures CommFrom(r) == c
  {
    HeadBack(c.head, r[2..]);
  }

  /** The items as read: the event's own in reverse, then those of its base class. */
  lemma ReadOrder(c: CommHead, own: seq<Item>)
    ensures Reverse(CommItems(c) + own) == Reverse(own) + Reverse(CommItems(c))
    ensures (Reverse(own) + Reverse(CommItems(c)))[|own|..] == Reverse(CommItems(c))
    ensures CommFrom(Reverse(CommItems(c))) == c
  {
    CommBack(c, Reverse(CommItems(c)));
  }

  ghost predicate GoesBack(e: Event) {
    |Written(e)| == |Expected(KindOf(e))| && Stored(KindOf(e), Reverse(Written(e))) == e
  }

  lemma CreateBack(e: Event)
    requires e.CommCreate? || e.CommDestroy?
    ensures GoesBack(e)
  {
    match e
    case CommCreate(c, members) =>
      ReadOrder(c, [List(members, Texts)]);
      TextRowsBack(members);
    case CommDestroy(c) => CommBack(c, Reverse(CommItems(c)));
  }

  lemma LogReqBack(e: Event)
    requires e.CommLogReq?
    ensures GoesBack(e)
  {
    ReadOrder(e.comm, [Signed(e.attr)]);
    SignedBack(e.attr);
  }

  lemma SamplesReqBack(e: Event)
    requires e.SamplesReq?
    ensures GoesBack(e)
  {
    ReadOrder(e.comm, [N32(e.count), N64(e.period), N64(e.startTime), Signed(e.attr)]);
    SignedBack(e.attr);
  }

  lemma ReqBack(e: Event)
    requires e.CommReq?
    ensures GoesBack(e)
  {
    ReadOrder(e.comm, [Longs(e.setValues), Ints(e.attrName), Ints(e.valueOp), N64(e.grpIndex)]);
    LongsBack(e.setValues);
    IntsBack(e.attrName);
    IntsBack(e.valueOp);
  }

  lemma RespBack(e: Event)
    requires e.CommResp?
    ensures GoesBack(e)
  {
    ReadOrder(e.comm, [List(e.timeStamp, Longs), List(e.value, Longs), N64(e.grpIndex),
                       Ints(e.errValue), Ints(e.errAttr), Texts(e.errObj)]);
    LongRowsBack(e.timeStamp);
    LongRowsBack(e.value);
    IntsBack(e.errValue);
    IntsBack(e.errAttr);
    TextsBack(e.errObj);
  }

  lemma LogRespBack(e: Event)
    requires e.CommLogResp?
    ensures GoesBack(e)
  {
    ReadOrder(e.comm, [Ints(e.errValue), Ints(e.errAttr), Texts(e.errObj)]);
    IntsBack(e.errValue);
    IntsBack(e.errAttr);
    TextsBack(e.errObj);
  }

  lemma SamplesBack(e: Event)
    requires e.SamplesResp?
    ensures GoesBack(e)
  {
    ReadOrder(e.comm, [Texts(e.errObj), Ints(e.errAttr), Ints(e.errValue), Longs(e.data), N32(e.count),
        N64(e.startTime)]);
    IntsBack(e.errValue);
    IntsBack(e.errAttr);
    TextsBack(e.errObj);
    LongsBack(e.data);
  }

  lemma PlainBack(e: Event)
    requires e.ServerConnect? || e.RouterEvent?
    ensures GoesBack(e)
  {
    match e
    case ServerConnect(h, name) => HeadBack(h, Reverse(Written(e))[1..]);
    case RouterEvent(h, dest, src, eventType, payload) =>
      HeadBack(h, Reverse(Written(e))[4..]);
      ListBack(payload, Octet, AsByte);
  }

  // ----- when the loop counters of the serializer hold every length -----

  predicate ShortText(t: Text) { |t| < 0x1_0000_0000 }
  predicate ShortTexts(v: seq<Text>) { |v| < 0x1_0000_0000 && forall k :: 0 <= k < |v| ==> ShortText(v[k]) }
  predicate ShortRows(v: seq<seq<U64>>) { |v| < 0x1_0000_0000 && forall k :: 0 <= k < |v| ==> |v[k]| < 0x1_0000_0000 }
  predicate Errors(errValue: seq<I32>, errAttr: seq<I32>, errObj: seq<Text>) {
    |errValue| < 0x1_0000_0000 && |errAttr| < 0x1_0000_0000 && ShortTexts(errObj)
  }

  /** No string or vector of the event has 2^32 elements or more. */
  predicate Short(e: Event) {
    match e
    case CommCreate(_, members) => |members| < 0x1_0000_0000 && forall k :: 0 <= k < |members| ==>
        ShortTexts(members[k])
    case CommDestroy(_) => true
    case CommReq(_, setValues, attrName, valueOp, _) =>
      |setValues| < 0x1_0000_0000 && |attrName| < 0x1_0000_0000 && |valueOp| < 0x1_0000_0000
    case CommResp(_, timeStamp, value, _, errValue, errAttr, errObj) =>
      ShortRows(timeStamp) && ShortRows(value) && Errors(errValue, errAttr, errObj)
    case CommLogReq(_, _) => true
    case CommLogResp(_, errValue, errAttr, errObj) => Errors(errValue, errAttr, errObj)
    case SamplesReq(_, _, _, _, _) => true
    case SamplesResp(_, errObj, errAttr, errValue, data, _, _) => |data| < 0x1_0000_0000
        && Errors(errValue, errAttr, errObj)
    case ServerConnect(_, name) => ShortText(name)
    case RouterEvent(_, _, _, _, payload) => |payload| < 0x1_0000_0000
  }

  lemma FitsAppend(a: seq<Item>, b: seq<Item>, x: seq<Shape>, y: seq<Shape>)
    requires FitsAll(a, x) && FitsAll(b, y)
    ensures FitsAll(a + b, y + x)
  {
    forall k | 0 <= k < |a + b| ensures Fits((a + b)[k], Reverse(y + x)[k]) {
      if k < |a| {
        assert Fits(a[k], Reverse(x)[k]);
      } else {
        assert Fits(b[k - |a|], Reverse(y)[k - |a|]);
      }
    }
  }

  lemma HeadFits(h: Head)
    ensures FitsAll(HeadItems(h), HeadShapes())
  {
    Pow256Eight();
  }

  lemma CommFits(c: CommHead, own: seq<Item>, shapes: seq<Shape>)
    requires FitsAll(own, shapes)
    ensures FitsAll(CommItems(c) + own, shapes + CommShapes())
  {
    Pow256Eight();
    HeadFits(c.head);
    FitsAppend(HeadItems(c.head), [N64(c.commId), Signed(c.op)], HeadShapes(), [NumOf(4), NumOf(8)]);
    FitsAppend(CommItems(c), own, CommShapes(), shapes);
  }

  lemma ListFits<T>(v: seq<T>, f: T -> Item, shape: Shape)
    requires |v| < 0x1_0000_0000 && forall k :: 0 <= k < |v| ==> Fits(f(v[k]), shape)
    ensures Fits(List(v, f), VecOf(shape))
  {
  }

  lemma LongsFit(v: seq<U64>)
    requires |v| < 0x1_0000_0000
    ensures Fits(Longs(v), LONGS)
  {
    Pow256Eight();
    ListFits(v, N64, NumOf(8));
  }

  lemma IntsFit(v: seq<I32>)
    requires |v| < 0x1_0000_0000
    ensures Fits(Ints(v), INTS)
  {
    Pow256Eight();
    ListFits(v, Signed, NumOf(4));
  }

  lemma TextsFit(v: seq<Text>)
    requires ShortTexts(v)
    ensures Fits(Texts(v), TEXTS)
  {
    ListFits(v, Chars, StrOf);
  }

  lemma RowsFit(v: seq<seq<U64>>)
    requires ShortRows(v)
    ensures Fits(List(v, Longs), VecOf(LONGS))
  {
    forall k | 0 <= k < |v| ensures Fits(Longs(v[k]), LONGS) { LongsFit(v[k]); }
    ListFits(v, Longs, LONGS);
  }

  lemma ErrorsFit(errValue: seq<I32>, errAttr: seq<I32>, errObj: seq<Text>)
    requires Errors(errValue, errAttr, errObj)
    ensures Fits(Ints(errValue), INTS) && Fits(Ints(errAttr), INTS) && Fits(Texts(errObj), TEXTS)
  {
    IntsFit(errValue);
    IntsFit(errAttr);
    TextsFit(errObj);
  }

  lemma CreateFits(e: Event)
    requires Short(e) && e.CommCreate?
    ensures FitsAll(Written(e), Expected(KindOf(e)))
  {
    var members := e.members;
    forall k | 0 <= k < |members| ensures Fits(Texts(members[k]), TEXTS) { TextsFit(members[k]); }
    ListFits(members, Texts, TEXTS);
    CommFits(e.comm, [List(members, Texts)], [VecOf(TEXTS)]);
  }

  lemma ReqFits(e: Event)
    requires Short(e) && e.CommReq?
    ensures FitsAll(Written(e), Expected(KindOf(e)))
  {
    Pow256Eight();
    LongsFit(e.setValues);
    IntsFit(e.attrName);
    IntsFit(e.valueOp);
    CommFits(e.comm, [Longs(e.setValues), Ints(e.attrName), Ints(e.valueOp), N64(e.grpIndex)],
        [NumOf(8), INTS, INTS, LONGS]);
  }

  lemma NumbersFit(e: Event)
    requires e.CommDestroy? || e.CommLogReq? || e.SamplesReq?
    ensures FitsAll(Written(e), Expected(KindOf(e)))
  {
    Pow256Eight();
    match e
    case CommDestroy(c) =>
      CommFits(c, [], []);
      assert CommItems(c) + [] == CommItems(c) && [] + CommShapes() == CommShapes();
    case CommLogReq(c, attr) => CommFits(c, [Signed(attr)], [NumOf(4)]);
    case SamplesReq(c, count, period, startTime, attr) =>
      CommFits(c, [N32(count), N64(period), N64(startTime), Signed(attr)], [NumOf(4), NumOf(8), NumOf(8), NumOf(4)]);
  }

  lemma RespFits(e: Event)
    requires Short(e) && (e.CommResp? || e.CommLogResp? || e.SamplesResp?)
    ensures FitsAll(Written(e), Expected(KindOf(e)))
  {
    Pow256Eight();
    ErrorsFit(e.errValue, e.errAttr, e.errObj);
    match e
    case CommResp(c, timeStamp, value, grpIndex, errValue, errAttr, errObj) =>
      RowsFit(timeStamp);
      RowsFit(value);
      CommFits(c, [List(timeStamp, Longs), List(value, Longs), N64(grpIndex), Ints(errValue), Ints(errAttr),
          Texts(errObj)],
               [TEXTS, INTS, INTS, NumOf(8), VecOf(LONGS), VecOf(LONGS)]);
    case CommLogResp(c, errValue, errAttr, errObj) =>
      CommFits(c, [Ints(errValue), Ints(errAttr), Texts(errObj)], [TEXTS, INTS, INTS]);
    case SamplesResp(c, errObj, errAttr, errValue, data, count, startTime) =>
      LongsFit(data);
      CommFits(c, [Texts(errObj), Ints(errAttr), Ints(errValue), Longs(data), N32(count), N64(startTime)],
               [NumOf(8), NumOf(4), LONGS, INTS, INTS, TEXTS]);
  }

  lemma PlainFits(e: Event)
    requires Short(e) && (e.ServerConnect? || e.RouterEvent?)
    ensures FitsAll(Written(e), Expected(KindOf(e)))
  {
    Pow256Eight();
    match e
    case ServerConnect(h, name) =>
      HeadFits(h);
      FitsAppend(HeadItems(h), [Chars(name)], HeadShapes(), [StrOf]);
    case RouterEvent(h, dest, src, eventType, payload) =>
      HeadFits(h);
      ListFits(payload, Octet, NumOf(1));
      FitsAppend(HeadItems(h), [N64(dest), N64(src), N32(eventType), List(payload, Octet)],
                 HeadShapes(), [VecOf(NumOf(1)), NumOf(4), NumOf(8), NumOf(8)]);
  }

  lemma ShortFits(e: Event)
    requires Short(e)
    ensures FitsAll(Written(e), Expected(KindOf(e)))
  {
    if e.CommResp? || e.CommLogResp? || e.SamplesResp? {
      RespFits(e);
    } else if e.ServerConnect? || e.RouterEvent? {
      PlainFits(e);
    } else if e.CommCreate? {
      CreateFits(e);
    } else if e.CommReq? {
      ReqFits(e);
    } else {
      NumbersFit(e);
    }
  }

  // ----- the round trip -----

  /**
    serialize_in after serialize_out gives back every field of every event type
    and leaves what was in the buffer before.
   */
  lemma EventRoundTrip(e: Event, pre: seq<Byte>)
    requires Short(e)
    ensures Decode(KindOf(e), pre + Encode(e)) == Some((e, pre))
  {
    ShortFits(e);
    AllRoundTrip(Written(e), Expected(KindOf(e)), pre);
    match KindOf(e)
    case CommReqKind => ReqBack(e);
    case CommLogReqKind => LogReqBack(e);
    case SamplesReqKind => SamplesReqBack(e);
    case CommRespKind => RespBack(e);
    case CommLogRespKind => LogRespBack(e);
    case SamplesRespKind => SamplesBack(e);
    case ServerConnectKind => PlainBack(e);
    case RouterKind => PlainBack(e);
    case CommCreateKind => CreateBack(e);
    case CommDestroyKind => CreateBack(e);
  }

  // ----- an event inside a router event -----

  /** RouterEvent( src, dest, ev ): the payload is the encoded event and the type its code. */
  function Wrap(src: U64, dest: U64, e: Event): Event {
    RouterEvent(Head(0, Code(RouterKind), 0), dest, src, HeadOf(e).code, Encode(e))
  }

  /** getPayload, with an allocator that knows every type. */
  function Unwrap(e: Event): Option<Event>
    requires e.RouterEvent?
  {
    var k := KindOfCode(e.eventType);
    if k.None? then None
    else
      var r := Decode(k.value, e.payload);
      if r.None? then None else Some(r.value.0)
  }

  /**
    An event sent inside a router event, written behind any bytes and read back,
    is delivered with the same source, destination and contents.
   */
  lemma NestedRoundTrip(src: U64, dest: U64, e: Event, pre: seq<Byte>)
    requires Short(e) && HeadOf(e).code == Code(KindOf(e)) && |Encode(e)| < 0x1_0000_0000
    ensures Decode(RouterKind, pre + Encode(Wrap(src, dest, e))) == Some((Wrap(src, dest, e), pre))
    ensures Unwrap(Wrap(src, dest, e)) == Some(e)
  {
    EventRoundTrip(Wrap(src, dest, e), pre);
    Unwrapped(src, dest, e);
  }

  lemma Unwrapped(src: U64, dest: U64, e: Event)
    requires Short(e) && HeadOf(e).code == Code(KindOf(e))
    ensures Unwrap(Wrap(src, dest, e)) == Some(e)
  {
    EventRoundTrip(e, []);
    assert [] + Encode(e) == Encode(e);
    CodeBack(KindOf(e));
  }

  lemma CodeBack(k: Kind)
    ensures KindOfCode(Code(k)) == Some(k)
  {
  }

  /** A reply goes back to where the request came from: the constructor is given the request's ends, swapped. */
  lemma ReplyReturns(request: Event, e: Event, pre: seq<Byte>)
    requires request.RouterEvent? && Short(e) && HeadOf(e).code == Code(KindOf(e)) && |Encode(e)| < 0x1_0000_0000
    ensures var r := Decode(RouterKind, pre + Encode(Wrap(request.dest, request.src, e)));
            && r.Some? && r.value.1 == pre && r.value.0.RouterEvent?
            && r.value.0.dest == request.src && r.value.0.src == request.dest && Unwrap(r.value.0) == Some(e)
  {
    NestedRoundTrip(request.dest, request.src, e, pre);
  }

  // ----- the methods -----

  /** serialize_out: the fields, one after the other. */
  method SerializeOut(e: Event, buf: SerialBuf)
    requires Short(e)
    modifies buf
    ensures buf.buf == old(buf.buf) + Encode(e)
  {
    ShortFits(e);
    var items := Written(e);
    for i := 0 to |items|
      invariant buf.buf == old(buf.buf) + EncAll(items[..i])
    {
      ghost var shapes := Reverse(Expected(KindOf(e)));
      assert Fits(items[i], shapes[i]);
      buf.Put(items[i], shapes[i]);
      assert items[..i + 1][..i] == items[..i];
      Fold(old(buf.buf), EncAll(items[..i]), Enc(items[i]));
    }
    assert items[..|items|] == items;
  }

  /** serialize_in, of an event of the given type. */
  method SerializeIn(k: Kind, buf: SerialBuf) returns (e: Event)
    requires Decode(k, buf.buf).Some?
    modifies buf
    ensures Decode(k, old(buf.buf)) == Some((e, buf.buf))
  {
    var shapes := Expected(k);
    var got: seq<Item> := [];
    ghost var all := DecAll(shapes, buf.buf);
    assert shapes[0..] == shapes && got + all.value.0 == all.value.0;
    for i := 0 to |shapes|
      invariant |got| == i
      invariant DecAll(shapes[i..], buf.buf).Some?
      invariant all == Some((got + DecAll(shapes[i..], buf.buf).value.0, DecAll(shapes[i..], buf.buf).value.1))
    {
      ghost var before := got;
      assert shapes[i..][1..] == shapes[i + 1..];
      var x := buf.Get(shapes[i]);
      got := got + [x];
      Fold(before, [x], DecAll(shapes[i + 1..], buf.buf).value.0);
    }
    assert got + [] == got;
    e := Stored(k, got);
  }

  /** An event goes out and comes in: the fields return, the bytes before it stay. */
  method OutAndIn(e: Event, buf: SerialBuf) returns (back: Event)
    requires Short(e)
    modifies buf
    ensures back == e && buf.buf == old(buf.buf)
  {
    SerializeOut(e, buf);
    EventRoundTrip(e, old(buf.buf));
    back := SerializeIn(KindOf(e), buf);
  }
}
