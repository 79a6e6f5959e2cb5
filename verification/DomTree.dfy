/** When moving a node keeps a document a tree: exactly when it does not end up below itself. */
module DomTree {
  import opened Dom

  /** A ranking of the nodes in which children come after their parents; one exists for trees only. */
  ghost predicate Ranks(kids: Children, rank: map<XMLNode, nat>)
  {
    && rank.Keys == kids.Keys
    && (forall n, c :: n in kids && c in kids[n] ==> c in kids && rank[n] < rank[c])
  }

  /** c is x, its parent, the parent of its parent, and so on. */
  ghost predicate Above(kids: Children, rank: map<XMLNode, nat>, c: XMLNode, x: XMLNode)
    requires Ranks(kids, rank) && x in kids
    decreases rank[x]
  {
    x == c || exists n :: n in kids && x in kids[n] && Above(kids, rank, c, n)
  }

  /** The edges after c became a child of p, and of no one else. */
  ghost predicate Moved(kids: Children, after: Children, c: XMLNode, p: XMLNode)
  {
    && after.Keys == kids.Keys && p in kids && c in kids
    && c in after[p]
    && (forall n, x :: n in kids && x in after[n] ==> if x == c then n == p else x in kids[n])
    && (forall n, x :: n in kids && x in kids[n] && x != c ==> x in after[n])
  }

  ghost predicate OneParent(kids: Children)
  {
    forall n, m, x :: n in kids && m in kids && x in kids[n] && x in kids[m] ==> n == m
  }

  /** Walking up from x, ranks of the moved tree cannot be smaller where c is met. */
  lemma {:induction false} StillBelow(kids: Children, rank: map<XMLNode, nat>, after: Children, rank2: map<XMLNode,
                                      nat>,
                                      c: XMLNode, p: XMLNode, x: XMLNode)
    requires Ranks(kids, rank) && Ranks(after, rank2) && Moved(kids, after, c, p) && x in kids
    requires Above(kids, rank, c, x)
    ensures rank2[c] <= rank2[x]
    decreases rank[x]
  {
    if x != c {
      var n :| n in kids && x in kids[n] && Above(kids, rank, c, n);
      StillBelow(kids, rank, after, rank2, c, p, n);
      assert x in after[n];
    }
  }

  /** A moved node and everything below it are ranked behind its new parent. */
  ghost function Reranked(kids: Children, rank: map<XMLNode, nat>, c: XMLNode, more: nat): (r: map<XMLNode, nat>)
    requires Ranks(kids, rank)
  {
    map x | x in kids :: if Above(kids, rank, c, x) then rank[x] + more else rank[x]
  }

  /** Other edges than those to c do not leave the part below it. */
  lemma AboveChild(kids: Children, rank: map<XMLNode, nat>, c: XMLNode, n: XMLNode, x: XMLNode)
    requires Ranks(kids, rank) && OneParent(kids) && n in kids && x in kids[n] && x != c
    ensures Above(kids, rank, c, x) <==> Above(kids, rank, c, n)
  {
  }

  lemma RerankedRanks(kids: Children, rank: map<XMLNode, nat>, after: Children, c: XMLNode, p: XMLNode)
    requires Ranks(kids, rank) && OneParent(kids) && Moved(kids, after, c, p) && !Above(kids, rank, c, p)
    ensures Ranks(after, Reranked(kids, rank, c, rank[p] + 1))
  {
    assert Above(kids, rank, c, c);
    hide Above;
    var rank2 := Reranked(kids, rank, c, rank[p] + 1);
    forall n, x | n in after && x in after[n] ensures x in after && rank2[n] < rank2[x] {
      if x != c { AboveChild(kids, rank, c, n, x); }
    }
  }

  /** A tree stays one if and only if the new parent is not the moved node or below it. */
  lemma StaysTreeIff(kids: Children, rank: map<XMLNode, nat>, after: Children, c: XMLNode, p: XMLNode)
    requires Ranks(kids, rank) && OneParent(kids) && Moved(kids, after, c, p)
    ensures (exists rank2 :: Ranks(after, rank2)) <==> !Above(kids, rank, c, p)
  {
    if Above(kids, rank, c, p) {
      forall rank2 ensures !Ranks(after, rank2) {
        if Ranks(after, rank2) {
          StillBelow(kids, rank, after, rank2, c, p, p);
        }
      }
    } else {
      RerankedRanks(kids, rank, after, c, p);
    }
  }

  // ----- the three insertions are such moves -----

  lemma WithoutMembers(s: seq<XMLNode>, k: nat)
    requires k < |s| && (forall i: nat, j: nat :: i < j < |s| ==> s[i] != s[j])
    ensures forall x :: x in Without(s, k) <==> x in s && x != s[k]
  {
    forall x ensures x in Without(s, k) <==> x in s && x != s[k] {
      if x in s && x != s[k] {
        var i: nat :| i < |s| && s[i] == x;
        assert Without(s, k)[if i < k then i else i - 1] == x;
      }
    }
  }

  lemma DetachedMembers(nodes: set<XMLNode>, kids: Children, c: XMLNode)
    requires Consistent(nodes, kids) && c in nodes
    ensures var d := Detached(kids, c, c.parent);
            && kids.Keys == nodes && d.Keys == nodes && OneParent(kids)
            && (forall n, x :: n in kids && x in d[n] ==> x != c && x in kids[n])
            && (forall n, x :: n in kids && x in kids[n] && x != c ==> x in d[n])
  {
    AllMembers(nodes, kids);
    if c.parent != null { WithoutMembers(kids[c.parent], IndexIn(kids[c.parent], c)); }
  }

  /** Adding c to the list of p, where c is in no list, moves it there. */
  lemma AddedMoves(kids: Children, d: Children, c: XMLNode, p: XMLNode, s: seq<XMLNode>)
    requires d.Keys == kids.Keys && c in kids && p in kids
    requires forall n, x :: n in kids && x in d[n] ==> x != c && x in kids[n]
    requires forall n, x :: n in kids && x in kids[n] && x != c ==> x in d[n]
    requires c in s && (forall x :: x in s ==> x in d[p] || x == c) && (forall x :: x in d[p] ==> x in s)
    ensures Moved(kids, d[p := s], c, p)
  {
  }

  lemma InsertionsMove(nodes: set<XMLNode>, kids: Children, afterThis: XMLNode, c: XMLNode, p: XMLNode)
    requires Consistent(nodes, kids) && c in nodes && p in nodes && afterThis in nodes
    ensures OneParent(kids)
    ensures Moved(kids, Appended(kids, c, c.parent, p), c, p) && Moved(kids, Prepended(kids, c, c.parent, p), c, p)
    ensures afterThis.parent == p ==> Moved(kids, Spliced(kids, afterThis, c, c.parent, p), c, p)
  {
    hide Moved, Detached, Consistent, OneParent;
    DetachedMembers(nodes, kids, c);
    Neighbours(nodes, kids, c);
    var d := Detached(kids, c, c.parent);
    AddedMoves(kids, d, c, p, d[p] + [c]);
    AddedMoves(kids, d, c, p, [c] + d[p]);
    if afterThis in d[p] {
      var k := IndexIn(d[p], afterThis);
      InsertedMembers(d[p], k + 1, c);
      AddedMoves(kids, d, c, p, Inserted(d[p], k + 1, c));
    }
  }
}
