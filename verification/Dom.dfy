/**
  The linked lists of the document object model: each node's children are one
  sequence, whatever way they are followed.
 */
module Dom {

  /** The children of every node of a document. */
  type Children = map<XMLNode, seq<XMLNode>>

  function Without<T>(s: seq<T>, k: nat): (r: seq<T>)
    requires k < |s|
    ensures |r| == |s| - 1
    ensures forall i :: 0 <= i < |r| ==> r[i] == if i < k then s[i] else s[i + 1]
  {
    s[..k] + s[k + 1..]
  }

  function Inserted<T>(s: seq<T>, k: nat, x: T): (r: seq<T>)
    requires k <= |s|
    ensures |r| == |s| + 1
    ensures forall i :: 0 <= i < |r| ==> r[i] == if i < k then s[i] else if i == k then x else s[i - 1]
  {
    s[..k] + [x] + s[k..]
  }

  class XMLNode {
    var parent: XMLNode?
    var firstChild: XMLNode?
    var lastChild: XMLNode?
    var prev: XMLNode?
    var next: XMLNode?

    constructor ()
      ensures parent == null && firstChild == null && lastChild == null && prev == null && next == null
    {
      parent, firstChild, lastChild, prev, next := null, null, null, null, null;
    }

    ghost predicate Placed(s: seq<XMLNode>, i: nat)
      reads s
      requires i < |s|
    {
      && s[i].parent == this
      && s[i].prev == (if i == 0 then null else s[i - 1])
      && s[i].next == (if i == |s| - 1 then null else s[i + 1])
    }

    /** All five pointers agree that the children of this node are the sequence s. */
    ghost predicate Lists(s: seq<XMLNode>)
      reads this, s
    {
      && this !in s
      && firstChild == (if s == [] then null else s[0])
      && lastChild == (if s == [] then null else s[|s| - 1])
      && (forall i: nat :: i < |s| ==> Placed(s, i))
      && (forall i: nat, j: nat :: i < j < |s| ==> s[i] != s[j])
    }

    /** Unlink: child number k of this node leaves the list; its own sibling pointers stay as they are. */
    method Unlink(child: XMLNode, ghost s: seq<XMLNode>, ghost k: nat)
      requires Lists(s) && k < |s| && s[k] == child
      modifies this`firstChild, this`lastChild, s
      ensures Lists(Without(s, k)) && child.parent == null && child.next == old(child.next)
      ensures forall c :: c in s ==> c.firstChild == old(c.firstChild) && c.lastChild == old(c.lastChild)
    {
      assert Placed(s, k);
      assert 0 < k ==> Placed(s, k - 1);
      assert k + 1 < |s| ==> Placed(s, k + 1);
      ghost var r := Without(s, k);
      if child == firstChild { firstChild := firstChild.next; }
      if child == lastChild { lastChild := lastChild.prev; }
      if child.prev != null { child.prev.next := child.next; }
      if child.next != null { child.next.prev := child.prev; }
      child.parent := null;
      forall i: nat | i < |r| ensures Placed(r, i) {
        if i < k { assert old(Placed(s, i)); } else { assert old(Placed(s, i + 1)); }
      }
    }

    /** The linking half of InsertEndChild. */
    method LinkLast(addThis: XMLNode, ghost s: seq<XMLNode>)
      requires Lists(s) && addThis != this && addThis !in s
      modifies this`firstChild, this`lastChild, addThis`parent, addThis`prev, addThis`next, s
      ensures Lists(s + [addThis])
      ensures forall c :: c in s ==> c.firstChild == old(c.firstChild) && c.lastChild == old(c.lastChild)
    {
      ghost var r := s + [addThis];
      if s != [] { assert Placed(s, |s| - 1); }
      if lastChild != null {
        lastChild.next := addThis;
        addThis.prev := lastChild;
        lastChild := addThis;
        addThis.next := null;
      } else {
        firstChild, lastChild := addThis, addThis;
        addThis.prev, addThis.next := null, null;
      }
      addThis.parent := this;
      forall i: nat | i < |r| ensures Placed(r, i) {
        if i < |s| { assert old(Placed(s, i)); }
      }
    }

    /** The linking half of InsertFirstChild. */
    method LinkFirst(addThis: XMLNode, ghost s: seq<XMLNode>)
      requires Lists(s) && addThis != this && addThis !in s
      modifies this`firstChild, this`lastChild, addThis`parent, addThis`prev, addThis`next, s
      ensures Lists([addThis] + s)
      ensures forall c :: c in s ==> c.firstChild == old(c.firstChild) && c.lastChild == old(c.lastChild)
    {
      ghost var r := [addThis] + s;
      if s != [] { assert Placed(s, 0); }
      if firstChild != null {
        firstChild.prev := addThis;
        addThis.next := firstChild;
        firstChild := addThis;
        addThis.prev := null;
      } else {
        firstChild, lastChild := addThis, addThis;
        addThis.prev, addThis.next := null, null;
      }
      addThis.parent := this;
      forall i: nat | i < |r| ensures Placed(r, i) {
        if 0 < i { assert old(Placed(s, i - 1)); }
      }
    }

    /**
      The linking half of InsertAfterChild; behind child number k, which is not the last one, it
      lists the new node where it should be.
     */
    method LinkAfter(afterThis: XMLNode, addThis: XMLNode, ghost s: seq<XMLNode>, ghost k: nat)
      requires afterThis.next != null
      modifies addThis`parent, addThis`prev, addThis`next, afterThis`next, afterThis.next`prev
      ensures addThis.parent == this && afterThis.next == addThis
      ensures old(Lists(s)) && addThis != this && addThis !in s && k + 1 < |s| && s[k] == afterThis ==>
                Lists(Inserted(s, k + 1, addThis))
    {
      ghost var listed := Lists(s) && addThis != this && addThis !in s && k + 1 < |s| && s[k] == afterThis;
      assert listed ==> Placed(s, k) && Placed(s, k + 1);
      addThis.prev := afterThis;
      addThis.next := afterThis.next;
      afterThis.next.prev := addThis;
      afterThis.next := addThis;
      addThis.parent := this;
      if listed {
        ghost var r := Inserted(s, k + 1, addThis);
        forall i: nat | i < |r| ensures Placed(r, i) {
          if i <= k { assert old(Placed(s, i)); } else if k + 1 < i { assert old(Placed(s, i - 1)); }
        }
      }
    }
  }

  // ----- all lists of a document at once -----

  /** Every node's list is its sequence of children, and every node with a parent is in that parent's list. */
  ghost predicate Consistent(nodes: set<XMLNode>, kids: Children)
    reads nodes
  {
    Listed(nodes, kids) && Homed(nodes, kids)
  }

  ghost predicate Listed(nodes: set<XMLNode>, kids: Children)
    reads nodes
  {
    kids.Keys == nodes && (forall n :: n in nodes ==> Owned(nodes, kids[n]) && n.Lists(kids[n]))
  }

  ghost predicate Homed(nodes: set<XMLNode>, kids: Children)
    reads nodes
    requires kids.Keys == nodes
  {
    forall c :: c in nodes && c.parent != null ==> c.parent in nodes && c in kids[c.parent]
  }

  ghost predicate Owned(nodes: set<XMLNode>, s: seq<XMLNode>) { forall c :: c in s ==> c in nodes }

  /** Where a node is in its parent's list. */
  ghost function IndexIn(s: seq<XMLNode>, c: XMLNode): (k: nat)
    requires c in s
    ensures k < |s| && s[k] == c
  {
    var k :| 0 <= k < |s| && s[k] == c;
    k
  }

  /** The lists after a node was taken out of the one it is in, if any. */
  ghost function Detached(kids: Children, c: XMLNode, p: XMLNode?): Children
    requires p != null ==> p in kids && c in kids[p]
  {
    if p == null then kids else kids[p := Without(kids[p], IndexIn(kids[p], c))]
  }

  /** Every node of a list has the owner of the list as its parent, so no node is in two lists. */
  lemma Members(p: XMLNode, s: seq<XMLNode>)
    requires p.Lists(s)
    ensures forall c :: c in s ==> c.parent == p
  {
    forall c | c in s ensures c.parent == p {
      var i: nat :| i < |s| && s[i] == c;
      assert p.Placed(s, i);
    }
  }

  lemma AllMembers(nodes: set<XMLNode>, kids: Children)
    requires Consistent(nodes, kids)
    ensures forall n, c :: n in nodes && c in kids[n] ==> c.parent == n
  {
    forall n, c | n in nodes && c in kids[n] ensures c.parent == n { Members(n, kids[n]); }
  }

  /** The list of n has the pointers it had. */
  twostate predicate Untouched(n: XMLNode, s: seq<XMLNode>)
    reads n, s
  {
    && n.firstChild == old(n.firstChild) && n.lastChild == old(n.lastChild)
    && (forall c :: c in s ==> c.parent == old(c.parent) && c.prev == old(c.prev) && c.next == old(c.next))
  }

  twostate predicate ParentKept(c: XMLNode, p: XMLNode, s: seq<XMLNode>)
    reads c
  {
    && (c.parent == p ==> c in s)
    && (c.parent != p && c.parent != null ==> c.parent == old(c.parent))
  }

  /** Among the nodes, whose lists were kids, the list of p has become s. */
  datatype Relisting = Relisting(nodes: set<XMLNode>, kids: Children, p: XMLNode, s: seq<XMLNode>)

  /** Once the list of p has become s, and no other list was touched, the document is consistent again. */
  twostate lemma Relisted(r: Relisting)
    requires old(Consistent(r.nodes, r.kids)) && r.p in r.nodes && r.p.Lists(r.s) && Owned(r.nodes, r.s)
    requires forall n :: n in r.nodes && n != r.p ==> Untouched(n, r.kids[n])
    requires forall c :: c in r.nodes ==> ParentKept(c, r.p, r.s)
    ensures Consistent(r.nodes, r.kids[r.p := r.s])
  {
    var Relisting(nodes, kids, p, s) := r;
    forall n | n in nodes && n != p ensures n.Lists(kids[n]) {
      assert old(n.Lists(kids[n])) && Untouched(n, kids[n]);
      forall i: nat | i < |kids[n]| ensures n.Placed(kids[n], i) { assert old(n.Placed(kids[n], i)); }
    }
    forall c | c in nodes && c.parent != null ensures c.parent in nodes && c in kids[p := s][c.parent] {
      assert ParentKept(c, p, s);
    }
  }

  lemma StillMembers(s: seq<XMLNode>, k: nat)
    requires k < |s|
    ensures forall c :: c in s && c != s[k] ==> c in Without(s, k)
    ensures forall c :: c in Without(s, k) ==> c in s
  {
    forall c | c in s && c != s[k] ensures c in Without(s, k) {
      var i: nat :| i < |s| && s[i] == c;
      assert Without(s, k)[if i < k then i else i - 1] == c;
    }
  }

  /** A node leaves the list it is in, if it is in one. */
  method Detach(c: XMLNode, ghost nodes: set<XMLNode>, ghost kids: Children)
    requires Consistent(nodes, kids) && c in nodes
    modifies nodes
    ensures Consistent(nodes, Detached(kids, c, old(c.parent))) && c.parent == null && c.next == old(c.next)
    ensures forall x :: x in nodes && x != c ==> x.parent == old(x.parent)
  {
    if c.parent != null {
      ghost var p: XMLNode := c.parent;
      ghost var s, k := kids[p], IndexIn(kids[p], c);
      assert Owned(nodes, s);
      AllMembers(nodes, kids);
      StillMembers(s, k);
      c.parent.Unlink(c, s, k);
      Members(p, Without(s, k));
      hide Without, IndexIn;
      Relisted(Relisting(nodes, kids, p, Without(s, k)));
    }
  }

  /** The lists after c moved to the end of p's. */
  ghost function Appended(kids: Children, c: XMLNode, from: XMLNode?, p: XMLNode): Children
    requires p in kids && (from != null ==> from in kids && c in kids[from])
  {
    var d := Detached(kids, c, from);
    d[p := d[p] + [c]]
  }

  ghost function Prepended(kids: Children, c: XMLNode, from: XMLNode?, p: XMLNode): Children
    requires p in kids && (from != null ==> from in kids && c in kids[from])
  {
    var d := Detached(kids, c, from);
    d[p := [c] + d[p]]
  }

  /** The lists after c moved behind afterThis, or to the end when that is where it is to go. */
  ghost function Spliced(kids: Children, afterThis: XMLNode, c: XMLNode, from: XMLNode?, p: XMLNode): Children
    requires p in kids && afterThis in kids[p] && (from != null ==> from in kids && c in kids[from])
    requires afterThis == c ==> from == p
  {
    var d := Detached(kids, c, from);
    if afterThis in d[p] then d[p := Inserted(d[p], IndexIn(d[p], afterThis) + 1, c)]
    else Appended(kids, c, from, p)
  }

  // ----- a node without a parent is linked into one list -----

  method AddLast(p: XMLNode, addThis: XMLNode, ghost nodes: set<XMLNode>, ghost kids: Children)
    requires Consistent(nodes, kids) && p in nodes && addThis in nodes && addThis != p && addThis.parent == null
    modifies nodes
    ensures Consistent(nodes, kids[p := kids[p] + [addThis]])
  {
    ghost var s := kids[p];
    AllMembers(nodes, kids);
    assert Owned(nodes, s);
    p.LinkLast(addThis, s);
    Members(p, s + [addThis]);
    Relisted(Relisting(nodes, kids, p, s + [addThis]));
  }

  method AddFirst(p: XMLNode, addThis: XMLNode, ghost nodes: set<XMLNode>, ghost kids: Children)
    requires Consistent(nodes, kids) && p in nodes && addThis in nodes && addThis != p && addThis.parent == null
    modifies nodes
    ensures Consistent(nodes, kids[p := [addThis] + kids[p]]) && addThis.prev == null
  {
    ghost var s := kids[p];
    AllMembers(nodes, kids);
    assert Owned(nodes, s);
    p.LinkFirst(addThis, s);
    assert p.Placed([addThis] + s, 0);
    Members(p, [addThis] + s);
    Relisted(Relisting(nodes, kids, p, [addThis] + s));
  }

  method AddAfter(p: XMLNode, afterThis: XMLNode, addThis: XMLNode, ghost nodes: set<XMLNode>, ghost kids: Children,
                  ghost k: nat)
    requires Consistent(nodes, kids) && p in nodes && addThis in nodes && addThis != p && addThis.parent == null
    requires k + 1 < |kids[p]| && kids[p][k] == afterThis
    modifies nodes
    ensures Consistent(nodes, kids[p := Inserted(kids[p], k + 1, addThis)])
  {
    ghost var s := kids[p];
    ghost var r := Inserted(s, k + 1, addThis);
    AllMembers(nodes, kids);
    assert Owned(nodes, s);
    assert p.Placed(s, k);
    InsertedMembers(s, k + 1, addThis);
    p.LinkAfter(afterThis, addThis, s, k);
    Members(p, r);
    Relisted(Relisting(nodes, kids, p, r));
  }

  lemma InsertedMembers(s: seq<XMLNode>, k: nat, x: XMLNode)
    requires k <= |s|
    ensures forall c :: c in Inserted(s, k, x) <==> c in s || c == x
  {
    forall c | c in s ensures c in Inserted(s, k, x) {
      var i: nat :| i < |s| && s[i] == c;
      assert Inserted(s, k, x)[if i < k then i else i + 1] == c;
    }
    assert Inserted(s, k, x)[k] == x;
  }

  // ----- what the pointers say, node by node -----

  ghost predicate AllDifferent(s: seq<XMLNode>) { forall i: nat, j: nat :: i < j < |s| ==> s[i] != s[j] }

  /** The node behind c in a list. */
  ghost function Following(s: seq<XMLNode>, c: XMLNode): XMLNode?
    requires c in s
  {
    var k := IndexIn(s, c);
    if k + 1 == |s| then null else s[k + 1]
  }

  ghost function Preceding(s: seq<XMLNode>, c: XMLNode): XMLNode?
    requires c in s
  {
    var k := IndexIn(s, c);
    if k == 0 then null else s[k - 1]
  }

  ghost function FirstOf(s: seq<XMLNode>): XMLNode? { if s == [] then null else s[0] }
  ghost function LastOf(s: seq<XMLNode>): XMLNode? { if s == [] then null else s[|s| - 1] }

  ghost predicate Pointed(nodes: set<XMLNode>, kids: Children)
    reads nodes
  {
    && kids.Keys == nodes
    && (forall n :: n in nodes ==>
          && n.firstChild == FirstOf(kids[n]) && n.lastChild == LastOf(kids[n])
          && AllDifferent(kids[n]) && Owned(nodes, kids[n]))
    && (forall n, c :: n in nodes && c in nodes && c in kids[n] ==> c.parent == n)
    && (forall c :: c in nodes && c.parent != null ==>
          && c.parent in nodes && c in kids[c.parent]
          && c.next == Following(kids[c.parent], c) && c.prev == Preceding(kids[c.parent], c))
  }

  lemma PointersAre(nodes: set<XMLNode>, kids: Children)
    requires Consistent(nodes, kids)
    ensures Pointed(nodes, kids)
  {
    AllMembers(nodes, kids);
    forall c | c in nodes && c.parent != null
      ensures c.next == Following(kids[c.parent], c) && c.prev == Preceding(kids[c.parent], c)
    {
      assert c.parent.Placed(kids[c.parent], IndexIn(kids[c.parent], c));
    }
  }

  lemma FollowingAt(s: seq<XMLNode>, k: nat)
    requires AllDifferent(s) && k < |s|
    ensures Following(s, s[k]) == if k + 1 == |s| then null else s[k + 1]
    ensures Preceding(s, s[k]) == if k == 0 then null else s[k - 1]
  {
  }

  /** Taking a node out leaves the order of the others. */
  lemma WithoutFollowing(s: seq<XMLNode>, c: XMLNode, x: XMLNode)
    requires AllDifferent(s) && c in s && x in s && x != c
    ensures var r := Without(s, IndexIn(s, c));
            AllDifferent(r) && x in r && c !in r
            && Following(r, x) == if Following(s, x) == c then Following(s, c) else Following(s, x)
  {
    var k, i := IndexIn(s, c), IndexIn(s, x);
    var r := Without(s, k);
    var j := if i < k then i else i - 1;
    assert r[j] == x;
    FollowingAt(r, j);
  }

  /** The order of the others in the list they are in, once c is out of it. */
  lemma DetachedFollowing(kids: Children, c: XMLNode, from: XMLNode?, q: XMLNode, x: XMLNode)
    requires from != null ==> from in kids && c in kids[from]
    requires q in kids && AllDifferent(kids[q]) && x in kids[q] && x != c && (c in kids[q] ==> q == from)
    ensures var r := Detached(kids, c, from)[q];
            AllDifferent(r) && x in r && c !in r
            && Following(r, x) == if Following(kids[q], x) == c then Following(kids[q], c) else Following(kids[q], x)
  {
    if q == from { WithoutFollowing(kids[q], c, x); }
  }

  lemma DetachedEnds(kids: Children, c: XMLNode, from: XMLNode?, q: XMLNode)
    requires from != null ==> from in kids && c in kids[from]
    requires q in kids && AllDifferent(kids[q]) && (c in kids[q] ==> q == from)
    ensures var s, r := kids[q], Detached(kids, c, from)[q];
            && AllDifferent(r) && c !in r
            && (FirstOf(s) != c ==> FirstOf(r) == FirstOf(s)) && (LastOf(s) != c ==> LastOf(r) == LastOf(s))
            && (FirstOf(s) == c ==> c in s && FirstOf(r) == Following(s, c))
            && (LastOf(s) == c ==> c in s && LastOf(r) == Preceding(s, c))
  {
    if q == from {
      var k := IndexIn(kids[q], c);
      StillMembers(kids[q], k);
    }
  }

  lemma FrontFollowing(s: seq<XMLNode>, c: XMLNode, x: XMLNode)
    requires AllDifferent(s) && c !in s && x in s
    ensures AllDifferent([c] + s) && Following([c] + s, x) == Following(s, x)
  {
    assert ([c] + s)[IndexIn(s, x) + 1] == x;
    FollowingAt([c] + s, IndexIn(s, x) + 1);
  }

  lemma EndFollowing(s: seq<XMLNode>, c: XMLNode, x: XMLNode)
    requires AllDifferent(s) && c !in s && x in s
    ensures AllDifferent(s + [c])
    ensures Following(s + [c], x) == if x == LastOf(s) then c else Following(s, x)
  {
    assert (s + [c])[IndexIn(s, x)] == x;
    FollowingAt(s + [c], IndexIn(s, x));
    FollowingAt(s, IndexIn(s, x));
  }

  lemma InsertedFollowing(s: seq<XMLNode>, k: nat, c: XMLNode, x: XMLNode)
    requires AllDifferent(s) && c !in s && x in s && k < |s|
    ensures x in Inserted(s, k + 1, c)
    ensures Following(Inserted(s, k + 1, c), x) == if x == s[k] then c else Following(s, x)
  {
    var r, i := Inserted(s, k + 1, c), IndexIn(s, x);
    var j := if i <= k then i else i + 1;
    assert r[j] == x;
    InsertedPlace(s, k, c);
    FollowingAt(r, j);
    FollowingAt(s, i);
    hide Following, Preceding, AllDifferent;
    assert i == k <==> x == s[k] by { FollowingAt(s, k); }
  }

  lemma InsertedPlace(s: seq<XMLNode>, k: nat, c: XMLNode)
    requires AllDifferent(s) && c !in s && k < |s|
    ensures AllDifferent(Inserted(s, k + 1, c)) && c in Inserted(s, k + 1, c)
    ensures Following(Inserted(s, k + 1, c), c) == Following(s, s[k]) && Preceding(Inserted(s, k + 1, c), c) == s[k]
  {
    var r := Inserted(s, k + 1, c);
    assert r[k + 1] == c;
    FollowingAt(r, k + 1);
    FollowingAt(s, k);
  }

  /** The node behind x, leaving out c. */
  ghost function Skipped(s: seq<XMLNode>, c: XMLNode, x: XMLNode): XMLNode?
    requires x in s
  {
    if c in s && Following(s, x) == c then Following(s, c) else Following(s, x)
  }

  /** c is in no list but the one of its parent. */
  ghost predicate OnlyFrom(kids: Children, c: XMLNode, from: XMLNode?) {
    && (from != null ==> from in kids && c in kids[from])
    && (forall q :: q in kids ==> AllDifferent(kids[q]) && (c in kids[q] ==> q == from))
  }

  /** c is in p's list, and apart from that all nodes follow each other as they did without it. */
  ghost predicate OrderKept(kids: Children, after: Children, c: XMLNode, p: XMLNode) {
    && p in after && c in after[p]
    && forall q, x :: q in kids && x in kids[q] && x != c ==>
      && q in after && x in after[q]
      && Following(after[q], x)
         == if q == p && x == Preceding(after[p], c) then c else Skipped(kids[q], c, x)
  }

  lemma FrontKept(kids: Children, c: XMLNode, from: XMLNode?, p: XMLNode)
    requires p in kids && OnlyFrom(kids, c, from)
    ensures var after := Prepended(kids, c, from, p);
            && OrderKept(kids, after, c, p) && FirstOf(after[p]) == c && Preceding(after[p], c) == null
            && Following(after[p], c)
               == if FirstOf(kids[p]) == c then Following(kids[p], c) else FirstOf(kids[p])
  {
    var d := Detached(kids, c, from);
    DetachedEnds(kids, c, from, p);
    FollowingAt([c] + d[p], 0);
    forall q, x | q in kids && x in kids[q] && x != c
      ensures x in Prepended(kids, c, from, p)[q]
      ensures Following(Prepended(kids, c, from, p)[q], x) == Skipped(kids[q], c, x)
    {
      DetachedFollowing(kids, c, from, q, x);
      if q == p { FrontFollowing(d[p], c, x); }
    }
  }

  lemma EndKept(kids: Children, c: XMLNode, from: XMLNode?, p: XMLNode)
    requires p in kids && OnlyFrom(kids, c, from)
    ensures var after := Appended(kids, c, from, p);
            && OrderKept(kids, after, c, p) && LastOf(after[p]) == c && Following(after[p], c) == null
            && Preceding(after[p], c)
               == if LastOf(kids[p]) == c then Preceding(kids[p], c) else LastOf(kids[p])
  {
    var d := Detached(kids, c, from);
    DetachedEnds(kids, c, from, p);
    FollowingAt(d[p] + [c], |d[p]|);
    forall q, x | q in kids && x in kids[q] && x != c
      ensures x in Appended(kids, c, from, p)[q]
      ensures Following(Appended(kids, c, from, p)[q], x)
           == if q == p && x == LastOf(d[p]) then c else Skipped(kids[q], c, x)
    {
      DetachedFollowing(kids, c, from, q, x);
      if q == p { EndFollowing(d[p], c, x); }
    }
  }

  lemma SplicedKept(kids: Children, b: XMLNode, c: XMLNode, from: XMLNode?, p: XMLNode)
    requires p in kids && OnlyFrom(kids, c, from) && b in kids[p] && b != c
    ensures var after := Spliced(kids, b, c, from, p);
            && OrderKept(kids, after, c, p) && Preceding(after[p], c) == b
            && Following(after[p], c) == Skipped(kids[p], c, b)
  {
    var d, after := Detached(kids, c, from), Spliced(kids, b, c, from, p);
    DetachedFollowing(kids, c, from, p, b);
    var k := IndexIn(d[p], b);
    InsertedPlace(d[p], k, c);
    InsertedMembers(d[p], k + 1, c);
    assert after == d[p := Inserted(d[p], k + 1, c)];
    hide Spliced, Inserted, IndexIn, Following, Preceding, AllDifferent, Detached;
    forall q, x | q in kids && x in kids[q] && x != c
      ensures x in after[q] && Following(after[q], x) == if q == p && x == b then c else Skipped(kids[q], c, x)
    {
      DetachedFollowing(kids, c, from, q, x);
      if q == p { InsertedFollowing(d[p], k, c, x); }
    }
  }

  /** The node is with the parent it had, before c if that follows it now, or before the next one without c. */
  twostate predicate InOrder(x: XMLNode, c: XMLNode)
    reads x, c
  {
    x.parent == old(x.parent) && x.next == if x == c.prev then c else old(if x.next == c then c.next else x.next)
  }

  /** The lists, as the pointers have them, before and after c moved to p's. */
  datatype Move = Move(nodes: set<XMLNode>, kids: Children, after: Children, c: XMLNode, p: XMLNode)

  twostate lemma Reordered(m: Move)
    requires m.c in m.nodes && m.p in m.nodes && old(Pointed(m.nodes, m.kids)) && Pointed(m.nodes, m.after)
    requires OrderKept(m.kids, m.after, m.c, m.p)
    ensures m.c.parent == m.p
    ensures m.c.prev == Preceding(m.after[m.p], m.c) && m.c.next == Following(m.after[m.p], m.c)
    ensures forall x :: x in m.nodes && x != m.c && old(x.parent) != null ==> InOrder(x, m.c)
  {
    forall x | x in m.nodes && x != m.c && old(x.parent) != null ensures InOrder(x, m.c) {
      var q := old(x.parent);
      assert x in m.kids[q] && x in m.after[q];
      assert x.parent == q;
      if q != m.p { assert x != Preceding(m.after[m.p], m.c) by { PrecedingIn(m.after[m.p], m.c); } }
    }
  }

  lemma PrecedingIn(s: seq<XMLNode>, c: XMLNode)
    requires c in s
    ensures Preceding(s, c) != null ==> Preceding(s, c) in s
  {
  }

  // ----- the public operations -----

  /** The steps of InsertEndChild. */
  method MoveLast(p: XMLNode, addThis: XMLNode, ghost nodes: set<XMLNode>, ghost kids: Children)
    requires Consistent(nodes, kids) && p in nodes && addThis in nodes && addThis != p
    modifies nodes
    ensures Consistent(nodes, Appended(kids, addThis, old(addThis.parent), p))
  {
    ghost var d := Detached(kids, addThis, addThis.parent);
    Detach(addThis, nodes, kids);
    AddLast(p, addThis, nodes, d);
  }

  /** The steps of InsertFirstChild. */
  method MoveFirst(p: XMLNode, addThis: XMLNode, ghost nodes: set<XMLNode>, ghost kids: Children)
    requires Consistent(nodes, kids) && p in nodes && addThis in nodes && addThis != p
    modifies nodes
    ensures Consistent(nodes, Prepended(kids, addThis, old(addThis.parent), p)) && addThis.prev == null
  {
    ghost var d := Detached(kids, addThis, addThis.parent);
    Detach(addThis, nodes, kids);
    AddFirst(p, addThis, nodes, d);
  }

  /** InsertEndChild: the node is taken out of the list it is in and becomes the last of this one. */
  method InsertEndChild(p: XMLNode, addThis: XMLNode, ghost nodes: set<XMLNode>, ghost kids: Children)
    requires Consistent(nodes, kids) && p in nodes && addThis in nodes && addThis != p
    modifies nodes
    ensures Consistent(nodes, Appended(kids, addThis, old(addThis.parent), p))
    ensures p.lastChild == addThis && addThis.parent == p && addThis.next == null
    ensures addThis.prev == old(if p.lastChild == addThis then addThis.prev else p.lastChild)
    ensures forall x :: x in nodes && x != addThis && old(x.parent) != null ==> InOrder(x, addThis)
  {
    ghost var from := addThis.parent;
    PointersAre(nodes, kids);
    EndKept(kids, addThis, from, p);
    assert old(p.lastChild) == LastOf(kids[p]);
    hide Consistent, Appended, Following, Preceding, FirstOf, AllDifferent;
    MoveLast(p, addThis, nodes, kids);
    ghost var after := Appended(kids, addThis, from, p);
    PointersAre(nodes, after);
    hide OrderKept, OnlyFrom;
    Reordered(Move(nodes, kids, after, addThis, p));
  }

  /** InsertFirstChild: it becomes the first one. */
  method InsertFirstChild(p: XMLNode, addThis: XMLNode, ghost nodes: set<XMLNode>, ghost kids: Children)
    requires Consistent(nodes, kids) && p in nodes && addThis in nodes && addThis != p
    modifies nodes
    ensures Consistent(nodes, Prepended(kids, addThis, old(addThis.parent), p))
    ensures p.firstChild == addThis && addThis.parent == p && addThis.prev == null
    ensures addThis.next == old(if p.firstChild == addThis then addThis.next else p.firstChild)
    ensures forall x :: x in nodes && x != addThis && old(x.parent) != null ==> InOrder(x, addThis)
  {
    ghost var from := addThis.parent;
    PointersAre(nodes, kids);
    FrontKept(kids, addThis, from, p);
    assert old(p.firstChild) == FirstOf(kids[p]);
    hide Consistent, Prepended, Following, Preceding, LastOf, AllDifferent;
    MoveFirst(p, addThis, nodes, kids);
    ghost var after := Prepended(kids, addThis, from, p);
    PointersAre(nodes, after);
    hide OrderKept, OnlyFrom;
    Reordered(Move(nodes, kids, after, addThis, p));
  }

  /** What comes of InsertAfterChild: the sibling is not here, a null pointer is followed, or all is linked. */
  datatype Insertion = Refused | NullPointer | Linked

  /** Putting a node behind itself, when another one follows. */
  ghost predicate BehindItself(afterThis: XMLNode, addThis: XMLNode)
    reads afterThis
  {
    afterThis == addThis && afterThis.next != null
  }

  /** Putting the last node behind the one it already follows. */
  ghost predicate AlreadyLast(afterThis: XMLNode, addThis: XMLNode)
    reads afterThis, addThis
  {
    afterThis.next == addThis && addThis.next == null
  }

  /** What one node's pointers say about the lists. */
  lemma Neighbours(nodes: set<XMLNode>, kids: Children, c: XMLNode)
    requires Consistent(nodes, kids) && c in nodes
    ensures kids.Keys == nodes
    ensures c.parent != null ==>
              c.parent in nodes && c in kids[c.parent] && c.next != c && (c.next != null ==> c.next in nodes)
  {
    if c.parent != null {
      assert Owned(nodes, kids[c.parent]);
      var s := kids[c.parent];
      var i: nat :| i < |s| && s[i] == c;
      assert c.parent.Placed(s, i);
    }
  }

  /** Where afterThis is once another node was taken out of the lists. */
  ghost function NewIndex(k: nat, j: nat): (r: nat)
    requires j != k
  {
    if k < j then k else k - 1
  }

  lemma IndexAfterDetach(nodes: set<XMLNode>, kids: Children, p: XMLNode, afterThis: XMLNode,
                         c: XMLNode) returns (k: nat)
    requires Consistent(nodes, kids) && p in nodes && c in nodes && afterThis in kids[p] && afterThis.next != null
        && afterThis != c
    ensures var s := Detached(kids, c, c.parent)[p];
            k < |s| && s[k] == afterThis && (k + 1 < |s| <==> !AlreadyLast(afterThis, c))
  {
    var s := kids[p];
    k := IndexIn(s, afterThis);
    assert p.Placed(s, k) && p.Placed(s, k + 1);
    if c.parent == p {
      var j := IndexIn(s, c);
      assert p.Placed(s, j);
      k := NewIndex(k, j);
    } else {
      Members(p, s);
    }
  }

  /** A node linked behind itself: no lists at all explain the pointers. */
  method Twist(p: XMLNode, c: XMLNode, ghost nodes: set<XMLNode>, ghost kids: Children)
    requires p in nodes && c in nodes && c.next in nodes
    modifies nodes
    ensures forall any :: !Consistent(nodes, any)
  {
    p.LinkAfter(c, c, [], 0);
    forall any ensures !Consistent(nodes, any) {
      if Consistent(nodes, any) { Neighbours(nodes, any, c); }
    }
  }

  lemma ListAt(nodes: set<XMLNode>, kids: Children, p: XMLNode, k: nat)
    requires Consistent(nodes, kids) && p in nodes && k < |kids[p]|
    ensures kids[p][k].next == null <==> k == |kids[p]| - 1
    ensures p.Lists(kids[p])
  {
    assert p.Placed(kids[p], k);
  }

  lemma SplicedAt(nodes: set<XMLNode>, kids: Children, d: Children, p: XMLNode, afterThis: XMLNode, c: XMLNode,
                  k: nat, from: XMLNode?)
    requires p in kids && p in d && afterThis in kids[p] && (from != null ==> from in kids && c in kids[from])
    requires p.Lists(d[p]) && d == Detached(kids, c, from) && k < |d[p]| && d[p][k] == afterThis && afterThis != c
    ensures Spliced(kids, afterThis, c, from, p) == d[p := Inserted(d[p], k + 1, c)]
  {
    IndexIsOnly(p, d[p], k);
  }

  /** A node behind another one that has a successor. */
  method PutBehind(p: XMLNode, afterThis: XMLNode, addThis: XMLNode, ghost nodes: set<XMLNode>, ghost kids: Children)
    returns (linked: bool)
    requires Consistent(nodes, kids) && p in nodes && afterThis in nodes && addThis in nodes && addThis != p
    requires afterThis.parent == p && afterThis.next != null && afterThis != addThis
    modifies nodes
    ensures linked <==> !old(AlreadyLast(afterThis, addThis))
    ensures linked ==> Consistent(nodes, Spliced(kids, afterThis, addThis, old(addThis.parent), p))
  {
    ghost var from := addThis.parent;
    ghost var d := Detached(kids, addThis, from);
    ghost var k := IndexAfterDetach(nodes, kids, p, afterThis, addThis);
    Detach(addThis, nodes, kids);
    hide Consistent, Spliced, Detached;
    ListAt(nodes, d, p, k);
    linked := afterThis.next != null;
    if linked {
      SplicedAt(nodes, kids, d, p, afterThis, addThis, k, from);
      AddAfter(p, afterThis, addThis, nodes, d, k);
    }
  }

  /** The steps of InsertAfterChild. */
  method PlaceAfter(p: XMLNode, afterThis: XMLNode, addThis: XMLNode, ghost nodes: set<XMLNode>,
                    ghost kids: Children)
    returns (r: Insertion)
    requires Consistent(nodes, kids) && p in nodes && afterThis in nodes && addThis in nodes && addThis != p
    modifies nodes
    ensures r == Refused <==> old(afterThis.parent) != p
    ensures r == NullPointer <==> old(afterThis.parent == p && AlreadyLast(afterThis, addThis))
    ensures r == Refused ==> unchanged(nodes)
    ensures r == Linked && !old(BehindItself(afterThis, addThis)) ==>
              Consistent(nodes, Spliced(kids, afterThis, addThis, old(addThis.parent), p))
    ensures r == Linked && old(BehindItself(afterThis, addThis)) ==> forall any :: !Consistent(nodes, any)
  {
    hide Consistent, Spliced, Detached;
    Neighbours(nodes, kids, afterThis);
    if afterThis.parent != p { return Refused; }
    if afterThis.next == null {
      LastIsEnd(nodes, kids, p, afterThis, addThis);
      MoveLast(p, addThis, nodes, kids);
      return Linked;
    }
    if afterThis == addThis {
      ghost var d := Detached(kids, addThis, addThis.parent);
      Detach(addThis, nodes, kids);
      Twist(p, addThis, nodes, d);
      return Linked;
    }
    var linked := PutBehind(p, afterThis, addThis, nodes, kids);
    return if linked then Linked else NullPointer;
  }

  /** InsertAfterChild does what it says except for two cases, each of which can be told beforehand. */
  method InsertAfterChild(p: XMLNode, afterThis: XMLNode, addThis: XMLNode, ghost nodes: set<XMLNode>,
                          ghost kids: Children)
    returns (r: Insertion)
    requires Consistent(nodes, kids) && p in nodes && afterThis in nodes && addThis in nodes && addThis != p
    modifies nodes
    ensures r == Refused <==> old(afterThis.parent) != p
    ensures r == NullPointer <==> old(afterThis.parent == p && AlreadyLast(afterThis, addThis))
    ensures r == Refused ==> unchanged(nodes)
    ensures r == Linked && !old(BehindItself(afterThis, addThis)) ==>
              Consistent(nodes, Spliced(kids, afterThis, addThis, old(addThis.parent), p))
    ensures r == Linked && afterThis != addThis ==>
              && afterThis.next == addThis && addThis.prev == afterThis && addThis.parent == p
              && addThis.next == old(if afterThis.next == addThis then addThis.next else afterThis.next)
              && forall x :: x in nodes && x != addThis && old(x.parent) != null ==> InOrder(x, addThis)
    ensures r == Linked && old(BehindItself(afterThis, addThis)) ==> forall any :: !Consistent(nodes, any)
  {
    ghost var from := addThis.parent;
    PointersAre(nodes, kids);
    r := PlaceAfter(p, afterThis, addThis, nodes, kids);
    if r == Linked && afterThis != addThis {
      ghost var after := Spliced(kids, afterThis, addThis, from, p);
      SplicedKept(kids, afterThis, addThis, from, p);
      PointersAre(nodes, after);
      hide Consistent, Spliced, Following, Preceding, AllDifferent, FirstOf, LastOf, OrderKept, OnlyFrom;
      Reordered(Move(nodes, kids, after, addThis, p));
    }
  }

  lemma IndexIsOnly(p: XMLNode, s: seq<XMLNode>, k: nat)
    requires p.Lists(s) && k < |s|
    ensures IndexIn(s, s[k]) == k
  {
  }

  /** Behind the last child is the end of the list. */
  lemma LastIsEnd(nodes: set<XMLNode>, kids: Children, p: XMLNode, afterThis: XMLNode, c: XMLNode)
    requires Consistent(nodes, kids) && p in nodes && c in nodes && afterThis in kids[p]
    requires afterThis.parent == p && afterThis.next == null
    ensures Spliced(kids, afterThis, c, c.parent, p) == Appended(kids, c, c.parent, p)
  {
    var s := kids[p];
    var k := IndexIn(s, afterThis);
    assert p.Placed(s, k);
    var d := Detached(kids, c, c.parent);
    if afterThis in d[p] {
      var i := IndexIn(d[p], afterThis);
      assert i == |d[p]| - 1;
      assert Inserted(d[p], i + 1, c) == d[p] + [c];
    }
  }

  lemma FirstChild(nodes: set<XMLNode>, kids: Children, p: XMLNode)
    requires Consistent(nodes, kids) && p in nodes
    ensures kids.Keys == nodes && (p.firstChild == null <==> kids[p] == [])
    ensures forall i, j | 0 <= i < j < |kids[p]| :: kids[p][i] != kids[p][j]
    ensures Owned(nodes, kids[p])
  {
  }

  method DeleteFirst(p: XMLNode, ghost nodes: set<XMLNode>, ghost kids: Children)
    requires Consistent(nodes, kids) && p in nodes && kids[p] != []
    modifies nodes
    ensures Consistent(nodes, kids[p := Without(kids[p], 0)]) && kids[p][0].parent == null
    ensures forall x :: x in nodes && x != kids[p][0] ==> x.parent == old(x.parent)
  {
    assert p.Placed(kids[p], 0);
    IndexIsOnly(p, kids[p], 0);
    Detach(p.firstChild, nodes, kids);
  }

  /** DeleteChildren: unlinking the first child as long as there is one ends with the empty list. */
  method DeleteChildren(p: XMLNode, ghost nodes: set<XMLNode>, ghost kids: Children)
    requires Consistent(nodes, kids) && p in nodes
    modifies nodes
    ensures Consistent(nodes, kids[p := []])
    ensures forall c :: c in kids[p] ==> c.parent == null
  {
    hide Consistent;
    ghost var now, gone: nat := kids, 0;
    Neighbours(nodes, kids, p);
    assert now == kids[p := kids[p][0..]];
    while p.firstChild != null
      invariant gone <= |kids[p]| && now == kids[p := kids[p][gone..]]
      invariant Consistent(nodes, now)
      invariant forall c :: c in kids[p][..gone] ==> c.parent == null
      decreases |kids[p]| - gone
    {
      FirstChild(nodes, now, p);
      DeleteFirst(p, nodes, now);
      assert Without(now[p], 0) == kids[p][gone + 1..];
      now, gone := now[p := Without(now[p], 0)], gone + 1;
    }
    FirstChild(nodes, now, p);
    assert kids[p][..gone] == kids[p];
  }
}
