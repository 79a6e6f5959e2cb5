/** Finite sums over functions that are zero almost everywhere, and over queues. */
module Weights {

  ghost function Sum<P>(f: P -> nat, places: set<P>): nat {
    if places == {} then 0
    else
      var p :| p in places;
      f(p) + Sum(f, places - {p})
  }

  lemma {:induction false} SumPick<P>(f: P -> nat, places: set<P>, p: P)
    requires p in places
    ensures Sum(f, places) == f(p) + Sum(f, places - {p})
    decreases places
  {
    var q :| q in places && Sum(f, places) == f(q) + Sum(f, places - {q});
    if q != p {
      SumPick(f, places - {q}, p);
      SumPick(f, places - {p}, q);
      assert places - {q} - {p} == places - {p} - {q};
    }
  }

  lemma {:induction false} SumSame<P>(f: P -> nat, g: P -> nat, places: set<P>)
    requires forall p :: p in places ==> f(p) == g(p)
    ensures Sum(f, places) == Sum(g, places)
    decreases places
  {
    if places != {} {
      var p :| p in places;
      SumPick(f, places, p);
      SumPick(g, places, p);
      SumSame(f, g, places - {p});
    }
  }

  ghost predicate Outside<P(!new)>(f: P -> nat, places: set<P>) {
    forall p :: p !in places ==> f(p) == 0
  }

  /** All values of f together are n. */
  ghost predicate Weighs<P(!new)>(f: P -> nat, n: nat) {
    exists places :: Outside(f, places) && Sum(f, places) == n
  }

  /** A change in one place changes the total by as much. */
  lemma Changed<P(!new)>(f: P -> nat, g: P -> nat, p: P, n: nat)
    requires Weighs(f, n) && forall q :: q != p ==> g(q) == f(q)
    ensures f(p) <= n && Weighs(g, n - f(p) + g(p))
  {
    var places :| Outside(f, places) && Sum(f, places) == n;
    var more := places + {p};
    assert more - {p} == places - {p};
    SumPick(f, more, p);
    SumPick(g, more, p);
    SumSame(f, g, more - {p});
    if p in places { SumPick(f, places, p); } else { assert places - {p} == places; }
    assert Outside(g, more);
  }

  lemma NothingWeighs<P(!new)>(f: P -> nat)
    requires forall p :: f(p) == 0
    ensures Weighs(f, 0)
  {
    var none: set<P> := {};
    assert Outside(f, none) && Sum(f, none) == 0;
  }

  // ----- queues -----

  ghost function Heap<T>(q: seq<T>, h: T -> nat): nat {
    if q == [] then 0 else h(q[0]) + Heap(q[1..], h)
  }

  lemma {:induction false} HeapAppend<T>(a: seq<T>, b: seq<T>, h: T -> nat)
    ensures Heap(a + b, h) == Heap(a, h) + Heap(b, h)
  {
    if a == [] {
      assert a + b == b;
    } else {
      assert (a + b)[1..] == a[1..] + b;
      HeapAppend(a[1..], b, h);
    }
  }

  lemma HeapOne<T>(q: seq<T>, x: T, h: T -> nat)
    ensures Heap(q + [x], h) == Heap(q, h) + h(x)
  {
    HeapAppend(q, [x], h);
    assert Heap([x], h) == h(x) + Heap([x][1..], h);
  }

  lemma {:induction false} HeapSame<T>(q: seq<T>, h: T -> nat, g: T -> nat)
    requires forall k :: 0 <= k < |q| ==> h(q[k]) == g(q[k])
    ensures Heap(q, h) == Heap(q, g)
  {
    if q != [] { HeapSame(q[1..], h, g); }
  }
}
