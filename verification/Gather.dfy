/**
  The gathering record of a router (struct CommReqInfo) and the two steps that
  touch it: its creation when a client's request is fanned out, and the arrival
  of one server's reply.
 */
module Gather {

  type Row = seq<real>

  datatype Op = Get | Set

  /** One entry of the three parallel error vectors of a response. */
  datatype AccessError = AccessError(obj: string, attr: nat, code: int)

  /** What a server's response carries: row 0 of its values and time stamps, and its errors. */
  datatype Reply = Reply(row: Row, stamps: seq<nat>, errs: seq<AccessError>)

  /** The answer under construction; it is sent when no group is pending. */
  datatype Response = Response(rows: seq<Row>, stamps: seq<seq<nat>>, errs: seq<AccessError>)

  datatype Info = Info(op: Op, cols: nat, sizes: seq<nat>, pending: nat,
                       respQ: seq<seq<Reply>>, resp: Response)

  function EmptyRows<T>(n: nat): (s: seq<seq<T>>)
    ensures |s| == n && forall g :: 0 <= g < n ==> s[g] == []
  {
    seq(n, _ => [])
  }

  function Zeros(n: nat): (r: Row)
    ensures |r| == n && forall i :: 0 <= i < n ==> r[i] == 0.0
  {
    seq(n, _ => 0.0)
  }

  function AddRows(a: Row, b: Row): (r: Row)
    requires |a| == |b|
    ensures |r| == |a| && forall i :: 0 <= i < |a| ==> r[i] == a[i] + b[i]
  {
    seq(|a|, i requires 0 <= i < |a| => a[i] + b[i])
  }

  /** Column sums of a list of rows, accumulated from the left as the router does. */
  function ColumnSum(cols: nat, rows: seq<Row>): (r: Row)
    requires forall j :: 0 <= j < |rows| ==> |rows[j]| == cols
    ensures |r| == cols
  {
    if rows == [] then Zeros(cols)
    else AddRows(ColumnSum(cols, rows[..|rows| - 1]), rows[|rows| - 1])
  }

  /** Sum of one column, as a plain sum over the list: the reference for ColumnSum. */
  function SumAt(rows: seq<Row>, i: nat): real
    requires forall j :: 0 <= j < |rows| ==> i < |rows[j]|
  {
    if rows == [] then 0.0 else rows[0][i] + SumAt(rows[1..], i)
  }

  lemma {:induction false} SumAtAppend(a: seq<Row>, b: seq<Row>, i: nat)
    requires forall j :: 0 <= j < |a| ==> i < |a[j]|
    requires forall j :: 0 <= j < |b| ==> i < |b[j]|
    ensures SumAt(a + b, i) == SumAt(a, i) + SumAt(b, i)
  {
    if a == [] {
      assert a + b == b;
    } else {
      assert (a + b)[1..] == a[1..] + b;
      SumAtAppend(a[1..], b, i);
    }
  }

  /** Each column of the accumulated row is the sum over that column. */
  lemma {:induction false} ColumnSumIsSum(cols: nat, rows: seq<Row>, i: nat)
    requires forall j :: 0 <= j < |rows| ==> |rows[j]| == cols
    requires i < cols
    ensures ColumnSum(cols, rows)[i] == SumAt(rows, i)
  {
    if rows != [] {
      var n := |rows| - 1;
      ColumnSumIsSum(cols, rows[..n], i);
      assert rows == rows[..n] + [rows[n]];
      SumAtAppend(rows[..n], [rows[n]], i);
    }
  }

  lemma MultisetSplit<T>(s: seq<T>, k: nat)
    requires k < |s|
    ensures multiset(s) == multiset(s[..k] + s[k + 1..]) + multiset{s[k]}
  {
    assert s == s[..k] + ([s[k]] + s[k + 1..]);
    assert multiset(s[..k] + s[k + 1..]) == multiset(s[..k]) + multiset(s[k + 1..]);
  }

  lemma DropCommon<T>(a: seq<T>, b: seq<T>, k: nat)
    requires a != [] && k < |b| && b[k] == a[0] && multiset(a) == multiset(b)
    ensures multiset(a[1..]) == multiset(b[..k] + b[k + 1..])
  {
    MultisetSplit(b, k);
    MultisetSplit(a, 0);
    assert a[..0] + a[1..] == a[1..];
    var x, y := multiset(a[1..]), multiset(b[..k] + b[k + 1..]);
    assert x + multiset{a[0]} == y + multiset{a[0]};
    assert x == (x + multiset{a[0]}) - multiset{a[0]};
    assert y == (y + multiset{a[0]}) - multiset{a[0]};
  }

  lemma SumAtRemove(b: seq<Row>, k: nat, i: nat)
    requires forall j :: 0 <= j < |b| ==> i < |b[j]|
    requires k < |b|
    ensures SumAt(b, i) == b[k][i] + SumAt(b[..k] + b[k + 1..], i)
  {
    SumAtAppend(b[..k], b[k + 1..], i);
    SumAtAppend([b[k]], b[k + 1..], i);
    SumAtAppend(b[..k], [b[k]] + b[k + 1..], i);
    assert b == b[..k] + ([b[k]] + b[k + 1..]);
    assert SumAt([b[k]], i) == b[k][i];
  }

  /** The sum of a column does not depend on the order of the rows. */
  lemma {:induction false} SumAtPermutation(a: seq<Row>, b: seq<Row>, i: nat)
    requires forall j :: 0 <= j < |a| ==> i < |a[j]|
    requires forall j :: 0 <= j < |b| ==> i < |b[j]|
    requires multiset(a) == multiset(b)
    ensures SumAt(a, i) == SumAt(b, i)
  {
    if a == [] {
      assert |multiset(b)| == |b|;
    } else {
      assert a[0] in multiset(b);
      var k :| 0 <= k < |b| && b[k] == a[0];
      var rest := b[..k] + b[k + 1..];
      DropCommon(a, b, k);
      SumAtPermutation(a[1..], rest, i);
      SumAtRemove(b, k, i);
    }
  }

  lemma {:induction false} ColumnSumPermutation(cols: nat, a: seq<Row>, b: seq<Row>)
    requires forall j :: 0 <= j < |a| ==> |a[j]| == cols
    requires multiset(a) == multiset(b)
    ensures forall j :: 0 <= j < |b| ==> |b[j]| == cols
    ensures ColumnSum(cols, a) == ColumnSum(cols, b)
  {
    forall j | 0 <= j < |b| ensures |b[j]| == cols {
      assert b[j] in multiset(a);
    }
    forall i | 0 <= i < cols ensures ColumnSum(cols, a)[i] == ColumnSum(cols, b)[i] {
      ColumnSumIsSum(cols, a, i);
      ColumnSumIsSum(cols, b, i);
      SumAtPermutation(a, b, i);
    }
  }

  function RowsOf(q: seq<Reply>): (rows: seq<Row>)
    ensures |rows| == |q| && forall j :: 0 <= j < |q| ==> rows[j] == q[j].row
  {
    seq(|q|, j requires 0 <= j < |q| => q[j].row)
  }

  function ErrsOf(q: seq<Reply>): seq<AccessError>
  {
    if q == [] then [] else ErrsOf(q[..|q| - 1]) + q[|q| - 1].errs
  }

  /** The record made for a request whose groups have the given sizes. */
  function Start(op: Op, cols: nat, sizes: seq<nat>): Info {
    var rows := if op == Get then EmptyRows(|sizes|) else [];
    Info(op, cols, sizes, |sizes|, EmptyRows(|sizes|),
         Response(rows, if op == Get then EmptyRows(|sizes|) else [], []))
  }

  ghost predicate ReplyFits(info: Info, r: Reply) {
    info.op == Get ==> |r.row| == info.cols && |r.stamps| == info.cols
  }

  /** All replies collected for group g have the width the request asked for. */
  ghost predicate QueueFits(info: Info, q: seq<Reply>) {
    forall j :: 0 <= j < |q| ==> ReplyFits(info, q[j])
  }

  function IncompleteUpTo(q: seq<seq<Reply>>, sizes: seq<nat>, n: nat): (c: nat)
    requires |q| == |sizes| && n <= |q|
    ensures c <= n
  {
    if n == 0 then 0
    else IncompleteUpTo(q, sizes, n - 1) + if |q[n - 1]| < sizes[n - 1] || sizes[n - 1] == 0 then 1 else 0
  }

  /** The number of groups that still wait for a reply; one without members waits for ever. */
  function Incomplete(info: Info): nat
    requires |info.respQ| == |info.sizes|
  {
    IncompleteUpTo(info.respQ, info.sizes, |info.sizes|)
  }

  ghost predicate GroupOk(info: Info, g: nat)
    requires g < |info.sizes| == |info.respQ|
    requires info.op == Get ==> |info.resp.rows| == |info.sizes| == |info.resp.stamps|
  {
    && |info.respQ[g]| <= info.sizes[g]
    && QueueFits(info, info.respQ[g])
    && (info.op == Get && 0 < |info.respQ[g]| == info.sizes[g] ==>
          info.resp.rows[g] == ColumnSum(info.cols, RowsOf(info.respQ[g]))
          && info.resp.stamps[g] == info.respQ[g][info.sizes[g] - 1].stamps)
  }

  /** What every step of the record keeps. */
  ghost predicate Valid(info: Info) {
    && |info.respQ| == |info.sizes|
    && (info.op == Get ==> |info.resp.rows| == |info.sizes| == |info.resp.stamps|)
    && (info.op == Set ==> info.resp.rows == [] && info.resp.stamps == [])
    && (forall g :: 0 <= g < |info.sizes| ==> GroupOk(info, g))
    && info.pending == Incomplete(info)
  }

  function Last(q: seq<Reply>): Reply
    requires q != []
  {
    q[|q| - 1]
  }

  /** The record after reply r for group g was processed. */
  function Process(info: Info, g: nat, r: Reply): Info
    requires g < |info.sizes| == |info.respQ|
    requires info.op == Get ==> |info.resp.rows| == |info.sizes| == |info.resp.stamps|
    requires |info.respQ[g]| + 1 == info.sizes[g] ==> 0 < info.pending
    requires ReplyFits(info, r) && QueueFits(info, info.respQ[g])
  {
    var q := info.respQ[g] + [r];
    assert QueueFits(info, q);
    assert info.op == Get ==> forall j :: 0 <= j < |q| ==> ReplyFits(info, q[j]) && |RowsOf(q)[j]| == info.cols;
    var more := info.(respQ := info.respQ[g := q]);
    if |q| != info.sizes[g] then more
    else
      more.(pending := info.pending - 1,
            resp := Response(
              if info.op == Get then info.resp.rows[g := ColumnSum(info.cols, RowsOf(q))] else info.resp.rows,
              if info.op == Get then info.resp.stamps[g := r.stamps] else info.resp.stamps,
              info.resp.errs + ErrsOf(q)))
  }

  lemma {:induction false} IncompleteFresh(q: seq<seq<Reply>>, sizes: seq<nat>, n: nat)
    requires |q| == |sizes| && n <= |q|
    requires forall g :: 0 <= g < |q| ==> q[g] == []
    ensures IncompleteUpTo(q, sizes, n) == n
  {
    if n != 0 { IncompleteFresh(q, sizes, n - 1); }
  }

  lemma StartValid(op: Op, cols: nat, sizes: seq<nat>)
    ensures Valid(Start(op, cols, sizes))
  {
    IncompleteFresh(EmptyRows(|sizes|), sizes, |sizes|);
  }

  /** One more reply in group g lowers the count exactly when it completes the group. */
  lemma {:induction false} IncompleteStep(q: seq<seq<Reply>>, sizes: seq<nat>, n: nat, g: nat, r: Reply)
    requires |q| == |sizes| && n <= |q| && g < |q|
    requires |q[g]| < sizes[g]
    ensures IncompleteUpTo(q[g := q[g] + [r]], sizes, n)
         == IncompleteUpTo(q, sizes, n) - if g < n && |q[g]| + 1 == sizes[g] then 1 else 0
  {
    if n != 0 { IncompleteStep(q, sizes, n - 1, g, r); }
  }

  lemma {:induction false} IncompletePositive(q: seq<seq<Reply>>, sizes: seq<nat>, n: nat, g: nat)
    requires |q| == |sizes| && n <= |q| && g < n
    requires |q[g]| < sizes[g]
    ensures 0 < IncompleteUpTo(q, sizes, n)
  {
    if g < n - 1 { IncompletePositive(q, sizes, n - 1, g); }
  }

  /** No group is incomplete exactly when every group has members and all their replies. */
  lemma {:induction false} IncompleteZero(q: seq<seq<Reply>>, sizes: seq<nat>, n: nat)
    requires |q| == |sizes| && n <= |q|
    requires forall g :: 0 <= g < |q| ==> |q[g]| <= sizes[g]
    ensures IncompleteUpTo(q, sizes, n) == 0 <==> forall g :: 0 <= g < n ==> 0 < |q[g]| == sizes[g]
  {
    if n != 0 { IncompleteZero(q, sizes, n - 1); }
  }

  lemma ProcessValid(info: Info, g: nat, r: Reply)
    requires Valid(info) && g < |info.sizes| && |info.respQ[g]| < info.sizes[g] && ReplyFits(info, r)
    ensures 0 < info.pending && QueueFits(info, info.respQ[g]) && Valid(Process(info, g, r))
  {
    IncompletePositive(info.respQ, info.sizes, |info.sizes|, g);
    IncompleteStep(info.respQ, info.sizes, |info.sizes|, g, r);
    assert GroupOk(info, g);
    var next := Process(info, g, r);
    forall h | 0 <= h < |info.sizes| ensures GroupOk(next, h) {
      assert GroupOk(info, h);
      assert GroupOk(info, g);
    }
  }

  // ----- whole runs of one record -----

  /** The replies of group g, in arrival order. */
  function Arrived(run: seq<(nat, Reply)>, g: nat): seq<Reply> {
    if run == [] then []
    else
      var rest := Arrived(run[..|run| - 1], g);
      if run[|run| - 1].0 == g then rest + [run[|run| - 1].1] else rest
  }

  /** A run of replies that the fan-out allows: no group gets more than it asked for. */
  ghost predicate Legal(op: Op, cols: nat, sizes: seq<nat>, run: seq<(nat, Reply)>) {
    && (forall k :: 0 <= k < |run| ==>
          run[k].0 < |sizes| && (op == Get ==> |run[k].1.row| == cols == |run[k].1.stamps|))
    && (forall g :: 0 <= g < |sizes| ==> |Arrived(run, g)| <= sizes[g])
  }

  lemma {:induction false} LegalPrefix(op: Op, cols: nat, sizes: seq<nat>, run: seq<(nat, Reply)>)
    requires Legal(op, cols, sizes, run) && run != []
    ensures Legal(op, cols, sizes, run[..|run| - 1])
    ensures |Arrived(run[..|run| - 1], run[|run| - 1].0)| < sizes[run[|run| - 1].0]
  {
    var n := |run| - 1;
    forall g | 0 <= g < |sizes| ensures |Arrived(run[..n], g)| <= sizes[g] {
      assert |Arrived(run, g)| <= sizes[g];
    }
    assert |Arrived(run, run[n].0)| <= sizes[run[n].0];
  }

  /** The record after a whole run, as the fold of Process. */
  ghost function After(op: Op, cols: nat, sizes: seq<nat>, run: seq<(nat, Reply)>): (info: Info)
    requires Legal(op, cols, sizes, run)
    ensures Valid(info) && info.op == op && info.cols == cols && info.sizes == sizes
    ensures forall g :: 0 <= g < |sizes| ==> info.respQ[g] == Arrived(run, g)
  {
    if run == [] then
      StartValid(op, cols, sizes);
      Start(op, cols, sizes)
    else
      LegalPrefix(op, cols, sizes, run);
      var before := After(op, cols, sizes, run[..|run| - 1]);
      ProcessValid(before, run[|run| - 1].0, run[|run| - 1].1);
      Process(before, run[|run| - 1].0, run[|run| - 1].1)
  }

  ghost predicate Complete(sizes: seq<nat>, run: seq<(nat, Reply)>) {
    forall g :: 0 <= g < |sizes| ==> |Arrived(run, g)| == sizes[g]
  }

  ghost predicate NoneEmpty(sizes: seq<nat>) {
    forall g :: 0 <= g < |sizes| ==> 0 < sizes[g]
  }

  /**
    In every interleaving the record has no pending group exactly when no group
    is without members and every member of every group has answered.
   */
  lemma AnswerWhenComplete(op: Op, cols: nat, sizes: seq<nat>, run: seq<(nat, Reply)>)
    requires Legal(op, cols, sizes, run)
    ensures After(op, cols, sizes, run).pending == 0 <==> NoneEmpty(sizes) && Complete(sizes, run)
  {
    var info := After(op, cols, sizes, run);
    assert forall g :: 0 <= g < |sizes| ==> GroupOk(info, g);
    IncompleteZero(info.respQ, sizes, |sizes|);
  }

  /** Replies for group g only. */
  function Copies(cols: nat, g: nat, m: nat): seq<(nat, Reply)> {
    if m == 0 then [] else Copies(cols, g, m - 1) + [(g, Reply(Zeros(cols), seq(cols, _ => 0), []))]
  }

  /** A run that answers everything, group by group. */
  function Everything(cols: nat, sizes: seq<nat>, n: nat): seq<(nat, Reply)>
    requires n <= |sizes|
  {
    if n == 0 then [] else Everything(cols, sizes, n - 1) + Copies(cols, n - 1, sizes[n - 1])
  }

  lemma {:induction false} ArrivedAppend(a: seq<(nat, Reply)>, b: seq<(nat, Reply)>, g: nat)
    ensures |Arrived(a + b, g)| == |Arrived(a, g)| + |Arrived(b, g)|
  {
    if b == [] {
      assert a + b == a;
    } else {
      var n := |b| - 1;
      ArrivedAppend(a, b[..n], g);
      assert (a + b)[..|a + b| - 1] == a + b[..n];
    }
  }

  predicate AllFit(cols: nat, sizes: seq<nat>, run: seq<(nat, Reply)>) {
    forall k :: 0 <= k < |run| ==> run[k].0 < |sizes| && |run[k].1.row| == cols == |run[k].1.stamps|
  }

  lemma {:induction false} CopiesArrive(cols: nat, sizes: seq<nat>, h: nat, m: nat, g: nat)
    requires h < |sizes|
    ensures |Arrived(Copies(cols, h, m), g)| == (if g == h then m else 0) && AllFit(cols, sizes, Copies(cols, h, m))
  {
    if m != 0 {
      CopiesArrive(cols, sizes, h, m - 1, g);
      var run := Copies(cols, h, m);
      assert run[..|run| - 1] == Copies(cols, h, m - 1);
    }
  }

  lemma {:induction false} EverythingArrives(cols: nat, sizes: seq<nat>, n: nat, g: nat)
    requires n <= |sizes| && g < |sizes|
    ensures |Arrived(Everything(cols, sizes, n), g)| == if g < n then sizes[g] else 0
    ensures AllFit(cols, sizes, Everything(cols, sizes, n))
  {
    if n != 0 {
      EverythingArrives(cols, sizes, n - 1, g);
      CopiesArrive(cols, sizes, n - 1, sizes[n - 1], g);
      ArrivedAppend(Everything(cols, sizes, n - 1), Copies(cols, n - 1, sizes[n - 1]), g);
    }
  }

  /**
    A request can be answered at all exactly when it has groups and none of them
    is empty: an empty group stays pending for ever, and without groups there is
    no reply whose processing would send the response.
   */
  lemma AnswerableIff(op: Op, cols: nat, sizes: seq<nat>)
    ensures (exists run: seq<(nat, Reply)> ::
        run != [] && Legal(op, cols, sizes, run) && After(op, cols, sizes, run).pending == 0)
       <==> sizes != [] && NoneEmpty(sizes)
  {
    if run: seq<(nat, Reply)> :| run != [] && Legal(op, cols, sizes, run) && After(op, cols, sizes, run).pending == 0 {
      AnswerWhenComplete(op, cols, sizes, run);
      assert run[0].0 < |sizes|;
    }
    if sizes != [] && NoneEmpty(sizes) {
      var run := Everything(cols, sizes, |sizes|);
      forall g | 0 <= g < |sizes| ensures |Arrived(run, g)| == sizes[g] { EverythingArrives(cols, sizes, |sizes|, g); }
      EverythingArrives(cols, sizes, |sizes|, 0);
      assert Legal(op, cols, sizes, run);
      AnswerWhenComplete(op, cols, sizes, run);
      assert |Arrived(run, 0)| > 0;
    }
  }

  /** No earlier point of a run was complete: the response leaves with the very last reply, and only then. */
  lemma AnswerOnce(op: Op, cols: nat, sizes: seq<nat>, run: seq<(nat, Reply)>, k: nat)
    requires Legal(op, cols, sizes, run) && k < |run|
    ensures !Complete(sizes, run[..k])
  {
    ArrivedGrows(run, k);
    assert run[k].0 < |sizes|;
    assert |Arrived(run, run[k].0)| <= sizes[run[k].0];
  }

  /** Row g of the response is the sum over the replies of group g. */
  lemma AnswerRow(cols: nat, sizes: seq<nat>, run: seq<(nat, Reply)>, g: nat, i: nat)
    requires Legal(Get, cols, sizes, run) && Complete(sizes, run)
    requires g < |sizes| && 0 < sizes[g] && i < cols
    ensures var resp := After(Get, cols, sizes, run).resp;
            && |resp.rows| == |sizes| && |resp.rows[g]| == cols
            && (forall j :: 0 <= j < sizes[g] ==> |RowsOf(Arrived(run, g))[j]| == cols)
            && resp.rows[g][i] == SumAt(RowsOf(Arrived(run, g)), i)
  {
    RowClosedForm(cols, sizes, run, g);
    ColumnSumIsSum(cols, RowsOf(Arrived(run, g)), i);
  }

  /** The reply at position k makes its group one longer than it was before. */
  lemma {:induction false} ArrivedGrows(run: seq<(nat, Reply)>, k: nat)
    requires k < |run|
    ensures |Arrived(run[..k], run[k].0)| < |Arrived(run, run[k].0)|
  {
    var n := |run| - 1;
    if k < n {
      ArrivedGrows(run[..n], k);
      assert run[..n][..k] == run[..k];
    }
  }

  // ----- arrival order does not matter, and no error is lost -----

  lemma {:induction false} ArrivedCount(run: seq<(nat, Reply)>, g: nat, r: Reply)
    ensures multiset(Arrived(run, g))[r] == multiset(run)[(g, r)]
  {
    if run != [] {
      var n := |run| - 1;
      ArrivedCount(run[..n], g, r);
      assert run == run[..n] + [run[n]];
    }
  }

  lemma ArrivedSame(one: seq<(nat, Reply)>, two: seq<(nat, Reply)>, g: nat)
    requires multiset(one) == multiset(two)
    ensures multiset(Arrived(one, g)) == multiset(Arrived(two, g))
    ensures |Arrived(one, g)| == |Arrived(two, g)|
  {
    forall r ensures multiset(Arrived(one, g))[r] == multiset(Arrived(two, g))[r] {
      ArrivedCount(one, g, r);
      ArrivedCount(two, g, r);
    }
    assert |Arrived(two, g)| == |multiset(Arrived(two, g))|;
    assert |Arrived(one, g)| == |multiset(Arrived(one, g))|;
  }

  lemma RowClosedForm(cols: nat, sizes: seq<nat>, run: seq<(nat, Reply)>, g: nat)
    requires Legal(Get, cols, sizes, run) && Complete(sizes, run) && g < |sizes| && 0 < sizes[g]
    ensures |After(Get, cols, sizes, run).resp.rows| == |sizes|
    ensures forall j :: 0 <= j < sizes[g] ==> |RowsOf(Arrived(run, g))[j]| == cols
    ensures After(Get, cols, sizes, run).resp.rows[g] == ColumnSum(cols, RowsOf(Arrived(run, g)))
  {
    var info := After(Get, cols, sizes, run);
    assert GroupOk(info, g);
    forall j | 0 <= j < sizes[g] ensures |RowsOf(info.respQ[g])[j]| == cols {
      assert ReplyFits(info, info.respQ[g][j]);
    }
  }

  /** Two runs that deliver the same replies, in whatever order, give the same value rows. */
  lemma RowsIgnoreOrder(cols: nat, sizes: seq<nat>, one: seq<(nat, Reply)>, two: seq<(nat, Reply)>, g: nat)
    requires Legal(Get, cols, sizes, one) && Complete(sizes, one)
    requires Legal(Get, cols, sizes, two) && multiset(one) == multiset(two)
    requires g < |sizes| && 0 < sizes[g]
    ensures Complete(sizes, two)
    ensures |After(Get, cols, sizes, one).resp.rows| == |sizes| == |After(Get, cols, sizes, two).resp.rows|
    ensures After(Get, cols, sizes, one).resp.rows[g] == After(Get, cols, sizes, two).resp.rows[g]
  {
    forall h | 0 <= h < |sizes| ensures |Arrived(two, h)| == sizes[h] {
      ArrivedSame(one, two, h);
    }
    RowClosedForm(cols, sizes, one, g);
    RowClosedForm(cols, sizes, two, g);
    ArrivedSame(one, two, g);
    RowsOfMultiset(Arrived(one, g), Arrived(two, g));
    ColumnSumPermutation(cols, RowsOf(Arrived(one, g)), RowsOf(Arrived(two, g)));
  }

  lemma {:induction false} RowsOfMultiset(a: seq<Reply>, b: seq<Reply>)
    requires multiset(a) == multiset(b)
    ensures multiset(RowsOf(a)) == multiset(RowsOf(b))
  {
    if a == [] {
      assert |multiset(b)| == |b|;
    } else {
      assert a[0] in multiset(b);
      var k :| 0 <= k < |b| && b[k] == a[0];
      var rest := b[..k] + b[k + 1..];
      DropCommon(a, b, k);
      RowsOfMultiset(a[1..], rest);
      RowsOfFirst(a);
      RowsOfSplit(b, k);
    }
  }

  lemma RowsOfFirst(q: seq<Reply>)
    requires q != []
    ensures multiset(RowsOf(q)) == multiset(RowsOf(q[1..])) + multiset{q[0].row}
  {
    assert RowsOf(q) == [q[0].row] + RowsOf(q[1..]);
  }

  lemma RowsOfSplit(q: seq<Reply>, k: nat)
    requires k < |q|
    ensures multiset(RowsOf(q)) == multiset(RowsOf(q[..k] + q[k + 1..])) + multiset{q[k].row}
  {
    MultisetSplit(RowsOf(q), k);
    assert RowsOf(q)[..k] + RowsOf(q)[k + 1..] == RowsOf(q[..k] + q[k + 1..]);
  }

  /** How often error e was reported by the replies of a run. */
  function Reported(run: seq<(nat, Reply)>, e: AccessError): nat {
    if run == [] then 0 else Reported(run[..|run| - 1], e) + multiset(run[|run| - 1].1.errs)[e]
  }

  /** How often error e sits in groups that are still incomplete. */
  function Held(q: seq<seq<Reply>>, sizes: seq<nat>, e: AccessError, n: nat): nat
    requires |q| == |sizes| && n <= |q|
  {
    if n == 0 then 0
    else Held(q, sizes, e, n - 1) + if |q[n - 1]| < sizes[n - 1] then multiset(ErrsOf(q[n - 1]))[e] else 0
  }

  lemma {:induction false} HeldStep(q: seq<seq<Reply>>, sizes: seq<nat>, e: AccessError, n: nat, g: nat, r: Reply)
    requires |q| == |sizes| && n <= |q| && g < |q| && |q[g]| < sizes[g]
    ensures var after := Held(q[g := q[g] + [r]], sizes, e, n);
            var before := Held(q, sizes, e, n);
            if n <= g then after == before
            else if |q[g]| + 1 < sizes[g] then after == before + multiset(r.errs)[e]
            else after + multiset(ErrsOf(q[g]))[e] == before
  {
    if n != 0 {
      HeldStep(q, sizes, e, n - 1, g, r);
      assert (q[g] + [r])[..|q[g]|] == q[g];
      assert ErrsOf(q[g] + [r]) == ErrsOf(q[g]) + r.errs;
    }
  }

  lemma {:induction false} HeldComplete(q: seq<seq<Reply>>, sizes: seq<nat>, e: AccessError, n: nat)
    requires |q| == |sizes| && n <= |q|
    requires forall g :: 0 <= g < |q| ==> |q[g]| >= sizes[g]
    ensures Held(q, sizes, e, n) == 0
  {
    if n != 0 { HeldComplete(q, sizes, e, n - 1); }
  }

  lemma {:induction false} HeldFresh(q: seq<seq<Reply>>, sizes: seq<nat>, e: AccessError, n: nat)
    requires |q| == |sizes| && n <= |q|
    requires forall g :: 0 <= g < |q| ==> q[g] == []
    ensures Held(q, sizes, e, n) == 0
  {
    if n != 0 { HeldFresh(q, sizes, e, n - 1); }
  }

  lemma {:induction false} ErrorsSoFar(op: Op, cols: nat, sizes: seq<nat>, run: seq<(nat, Reply)>, e: AccessError)
    requires Legal(op, cols, sizes, run)
    ensures var info := After(op, cols, sizes, run);
            multiset(info.resp.errs)[e] + Held(info.respQ, sizes, e, |sizes|) == Reported(run, e)
  {
    var info := After(op, cols, sizes, run);
    if run == [] {
      HeldFresh(info.respQ, sizes, e, |sizes|);
    } else {
      LegalPrefix(op, cols, sizes, run);
      var n := |run| - 1;
      ErrorsSoFar(op, cols, sizes, run[..n], e);
      var before := After(op, cols, sizes, run[..n]);
      var (g, r) := run[n];
      HeldStep(before.respQ, sizes, e, |sizes|, g, r);
      assert (before.respQ[g] + [r])[..|before.respQ[g]|] == before.respQ[g];
      assert ErrsOf(before.respQ[g] + [r]) == ErrsOf(before.respQ[g]) + r.errs;
    }
  }

  /** The response carries every error every reply reported, as often as it was reported. */
  lemma ErrorsConserved(op: Op, cols: nat, sizes: seq<nat>, run: seq<(nat, Reply)>, e: AccessError)
    requires Legal(op, cols, sizes, run) && Complete(sizes, run)
    ensures multiset(After(op, cols, sizes, run).resp.errs)[e] == Reported(run, e)
  {
    ErrorsSoFar(op, cols, sizes, run, e);
    HeldComplete(After(op, cols, sizes, run).respQ, sizes, e, |sizes|);
  }

  /** Errors stand in the order in which the replies of the group came. */
  lemma {:induction false} ErrorsInOrder(q: seq<Reply>, j: nat)
    requires j < |q|
    ensures ErrsOf(q[..j]) + q[j].errs <= ErrsOf(q) && ErrsOf([]) == []
  {
    var n := |q| - 1;
    if j == n {
      assert q[..j] == q[..n];
    } else {
      ErrorsInOrder(q[..n], j);
      assert q[..n][..j] == q[..j];
    }
  }

  /** What is in the answer stays; a group adds its errors when it is complete. */
  lemma ErrorsAppended(info: Info, g: nat, r: Reply)
    requires Valid(info) && g < |info.sizes| && |info.respQ[g]| < info.sizes[g] && ReplyFits(info, r)
    ensures |info.respQ| == |info.sizes|
    ensures QueueFits(info, info.respQ[g]) && (|info.respQ[g]| + 1 == info.sizes[g] ==> 0 < info.pending)
    ensures Process(info, g, r).resp.errs
         == info.resp.errs + if |info.respQ[g]| + 1 == info.sizes[g] then ErrsOf(info.respQ[g] + [r]) else []
  {
    assert GroupOk(info, g);
    ProcessValid(info, g, r);
    assert info.resp.errs + [] == info.resp.errs;
  }

  /** The accumulation loops over one full group: its row and the time stamps that survive. */
  method SumGroup(cols: nat, q: seq<Reply>) returns (acc: Row, stamp: seq<nat>)
    requires q != []
    requires forall j :: 0 <= j < |q| ==> |q[j].row| == cols == |q[j].stamps|
    ensures acc == ColumnSum(cols, RowsOf(q))
    ensures stamp == Last(q).stamps
  {
    acc, stamp := Zeros(cols), seq(cols, _ => 0);
    for j := 0 to |q|
      invariant acc == ColumnSum(cols, RowsOf(q)[..j])
      invariant |stamp| == cols && (0 < j ==> stamp == q[j - 1].stamps)
    {
      ghost var start := acc;
      for i := 0 to cols
        invariant |acc| == cols == |stamp|
        invariant forall k :: 0 <= k < i ==> acc[k] == start[k] + q[j].row[k] && stamp[k] == q[j].stamps[k]
        invariant forall k :: i <= k < cols ==> acc[k] == start[k]
      {
        acc := acc[i := acc[i] + q[j].row[i]];
        stamp := stamp[i := q[j].stamps[i]];
      }
      assert acc == AddRows(start, q[j].row);
      assert RowsOf(q)[..j + 1] == RowsOf(q)[..j] + [q[j].row];
      assert stamp == q[j].stamps;
    }
    assert RowsOf(q)[..|q|] == RowsOf(q);
  }

  method CollectErrors(q: seq<Reply>, errs: seq<AccessError>) returns (all: seq<AccessError>)
    ensures all == errs + ErrsOf(q)
  {
    all := errs;
    for j := 0 to |q|
      invariant all == errs + ErrsOf(q[..j])
    {
      all := all + q[j].errs;
      assert q[..j + 1][..j] == q[..j];
    }
    assert q[..|q|] == q;
  }

  /** struct CommReqInfo with the response it builds. */
  class CommReqInfo {
    const op: Op
    const cols: nat
    const grpInfo: seq<nat>
    var pending: nat
    var respQ: seq<seq<Reply>>
    var rows: seq<Row>
    var stamps: seq<seq<nat>>
    var errs: seq<AccessError>

    ghost function State(): Info
      reads this
    {
      Info(op, cols, grpInfo, pending, respQ, Response(rows, stamps, errs))
    }

    /** What RtrCommReqEvent::process fills in before the fan-out. */
    constructor (op: Op, cols: nat, sizes: seq<nat>)
      ensures State() == Start(op, cols, sizes)
    {
      this.op, this.cols, this.grpInfo := op, cols, sizes;
      pending := |sizes|;
      respQ := EmptyRows(|sizes|);
      rows := if op == Get then EmptyRows(|sizes|) else [];
      stamps := if op == Get then EmptyRows(|sizes|) else [];
      errs := [];
    }

    /** RtrCommRespEvent::process: queue the reply, and when its group is full add the group up. */
    method OnReply(g: nat, r: Reply) returns (send: bool)
      requires Valid(State()) && g < |grpInfo| && |respQ[g]| < grpInfo[g] && ReplyFits(State(), r)
      modifies this
      ensures 0 < old(pending) && QueueFits(old(State()), old(respQ)[g])
      ensures State() == Process(old(State()), g, r) && Valid(State())
      ensures send <==> pending == 0
    {
      ghost var before := State();
      ProcessValid(before, g, r);
      assert GroupOk(before, g);
      respQ := respQ[g := respQ[g] + [r]];
      if |respQ[g]| == grpInfo[g] {
        var q := respQ[g];
        assert QueueFits(before, q);
        if op == Get {
          assert forall j :: 0 <= j < |q| ==> ReplyFits(before, q[j]);
          var acc, stamp := SumGroup(cols, q);
          rows := rows[g := acc];
          stamps := stamps[g := stamp];
        }
        errs := CollectErrors(q, errs);
        pending := pending - 1;
        send := pending == 0;
      } else {
        send := false;
      }
      assert State() == Process(before, g, r);
    }
  }
}
