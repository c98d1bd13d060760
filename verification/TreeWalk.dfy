/** Walking a linked tree in document order, and what cleaning does to the
    order, the values and the positions of its nodes. */
module TreeWalk {
  import opened LinkedTree

  /** The nodes of a tree in document order. */
  ghost function PreOrder(s: Shape): seq<Node>
    decreases s, 0
  {
    [s.node] + PreKids(s.kids, |s.kids|)
  }

  /** The nodes of the first `n` children's trees, in document order. */
  ghost function PreKids(kids: seq<Shape>, n: nat): seq<Node>
    requires n <= |kids|
    decreases kids, n
  {
    if n == 0 then [] else PreKids(kids, n - 1) + PreOrder(kids[n - 1])
  }

  /** The nodes of a list that satisfy a test, in order. */
  ghost function Select(test: Info -> bool, nodes: seq<Node>): seq<Node> {
    if nodes == [] then []
    else
      var rest := Select(test, nodes[..|nodes| - 1]);
      var last := nodes[|nodes| - 1];
      if test(last.info) then rest + [last] else rest
  }

  lemma {:induction false} SelectJoin(test: Info -> bool, a: seq<Node>, b: seq<Node>)
    ensures Select(test, a + b) == Select(test, a) + Select(test, b)
  {
    if b == [] {
      assert a + b == a;
    } else {
      SelectJoin(test, a, b[..|b| - 1]);
      assert (a + b)[..|a + b| - 1] == a + b[..|b| - 1];
    }
  }

  lemma OneMoreKid(test: Info -> bool, matches: seq<Node>, node: Node, kids: seq<Shape>, n: nat)
    requires n < |kids|
    ensures matches + Select(test, [node] + PreKids(kids, n)) + Select(test, PreOrder(kids[n])) ==
            matches + Select(test, [node] + PreKids(kids, n + 1))
  {
    SelectJoin(test, [node] + PreKids(kids, n), PreOrder(kids[n]));
    assert [node] + PreKids(kids, n + 1) == [node] + PreKids(kids, n) + PreOrder(kids[n]);
  }

  // ----- `findElements`

  method Walk(test: Info -> bool, node: Node, matches: seq<Node>, ghost s: Shape) returns (found: seq<Node>)
    requires s.node == node && Linked(s)
    ensures found == matches + Select(test, PreOrder(s))
    decreases s
  {
    found := matches;
    if test(node.info) {
      found := found + [node];
    }
    SelectJoin(test, [], [node]);
    var child := node.FirstChild;
    ghost var n := 0;
    while child != null
      invariant 0 <= n <= |s.kids| && child == At(s.kids, n)
      invariant found == matches + Select(test, [node] + PreKids(s.kids, n))
      decreases |s.kids| - n
    {
      ChildAt(s, n);
      found := Walk(test, child, found, s.kids[n]);
      OneMoreKid(test, matches, node, s.kids, n);
      child := child.NextSibling;
      n := n + 1;
    }
  }

  /** All matching nodes of the tree at `root`, in document order. */
  method FindElements(root: Node, test: Info -> bool, ghost s: Shape) returns (matches: seq<Node>)
    requires s.node == root && Linked(s)
    ensures matches == Select(test, PreOrder(s))
  {
    matches := Walk(test, root, [], s);
  }

  // ----- Document order lists every node once

  ghost predicate NoRepeats(nodes: seq<Node>) {
    forall i, j :: 0 <= i < j < |nodes| ==> nodes[i] != nodes[j]
  }

  lemma {:induction false} PreOrderWithin(s: Shape)
    requires Distinct(s)
    ensures forall x :: x in PreOrder(s) ==> x in s.Region()
    decreases s, 0
  {
    PreKidsWithin(s.kids, |s.kids|, s.below);
  }

  lemma {:induction false} PreKidsWithin(kids: seq<Shape>, n: nat, region: set<Node>)
    requires n <= |kids| && Apart(kids) && Within(kids, region)
    ensures forall x :: x in PreKids(kids, n) ==> x in region
    decreases kids, n
  {
    if n > 0 {
      assert Distinct(kids[n - 1]) && kids[n - 1].Region() <= region;
      PreKidsWithin(kids, n - 1, region);
      PreOrderWithin(kids[n - 1]);
    }
  }

  lemma {:induction false} PreOrderNoRepeats(s: Shape)
    requires Distinct(s)
    ensures NoRepeats(PreOrder(s))
    decreases s, 0
  {
    PreKidsNoRepeats(s.kids, |s.kids|);
    PreKidsWithin(s.kids, |s.kids|, s.below);
  }

  lemma {:induction false} PreKidsApart(kids: seq<Shape>, n: nat, j: nat)
    requires n <= j < |kids| && Apart(kids)
    ensures forall x :: x in PreKids(kids, n) ==> x !in kids[j].Region()
    decreases kids, n
  {
    if n > 0 {
      assert Distinct(kids[n - 1]) && kids[n - 1].Region() !! kids[j].Region();
      PreKidsApart(kids, n - 1, j);
      PreOrderWithin(kids[n - 1]);
    }
  }

  lemma {:induction false} PreKidsNoRepeats(kids: seq<Shape>, n: nat)
    requires n <= |kids| && Apart(kids)
    ensures NoRepeats(PreKids(kids, n))
    decreases kids, n
  {
    if n > 0 {
      var a, b := PreKids(kids, n - 1), PreOrder(kids[n - 1]);
      assert Distinct(kids[n - 1]);
      PreKidsNoRepeats(kids, n - 1);
      PreOrderNoRepeats(kids[n - 1]);
      PreKidsApart(kids, n - 1, n - 1);
      PreOrderWithin(kids[n - 1]);
      NoRepeatsJoin(a, b);
    }
  }

  lemma NoRepeatsJoin(a: seq<Node>, b: seq<Node>)
    requires NoRepeats(a) && NoRepeats(b) && forall x :: x in a ==> x !in b
    ensures NoRepeats(a + b)
  {
    forall i, j | 0 <= i < j < |a + b|
      ensures (a + b)[i] != (a + b)[j]
    {
      if i < |a| <= j {
        assert a[i] !in b;
      }
    }
  }

  // ----- Cleaning as a function on trees

  ghost function Pruned(drop: Info -> bool, t: Tree): Tree
    decreases t, 0
  {
    Tree(t.info, PrunedKids(drop, t.kids, |t.kids|))
  }

  ghost function PrunedKids(drop: Info -> bool, kids: seq<Tree>, n: nat): seq<Tree>
    requires n <= |kids|
    decreases kids, n
  {
    if n == 0 then []
    else if drop(kids[n - 1].info) then PrunedKids(drop, kids, n - 1)
    else PrunedKids(drop, kids, n - 1) + [Pruned(drop, kids[n - 1])]
  }

  /** Cleaning the linked tree in place gives the pruned document. */
  lemma {:induction false} AbsCleaned(drop: Info -> bool, s: Shape)
    ensures Abs(Cleaned(drop, s)) == Pruned(drop, Abs(s))
    decreases s, 0
  {
    AbsCleanedKids(drop, s, |s.kids|);
  }

  lemma {:induction false} AbsCleanedKids(drop: Info -> bool, s: Shape, n: nat)
    requires n <= |s.kids|
    ensures var done := CleanedKids(drop, s.kids, n);
            var pruned := PrunedKids(drop, Abs(s).kids, n);
            |done| == |pruned| && forall i :: 0 <= i < |done| ==> Abs(done[i]) == pruned[i]
    decreases s.kids, n
  {
    if n > 0 {
      AbsCleanedKids(drop, s, n - 1);
      AbsCleaned(drop, s.kids[n - 1]);
    }
  }

  /** Nothing below the root is to be dropped. */
  ghost predicate Purged(drop: Info -> bool, t: Tree) {
    forall i :: 0 <= i < |t.kids| ==> !drop(t.kids[i].info) && Purged(drop, t.kids[i])
  }

  /** Every pruned child is some child that was not dropped, pruned. */
  lemma {:induction false} PrunedFrom(drop: Info -> bool, kids: seq<Tree>, n: nat, p: nat) returns (q: nat)
    requires n <= |kids| && p < |PrunedKids(drop, kids, n)|
    ensures q < n && PrunedKids(drop, kids, n)[p] == Pruned(drop, kids[q]) && !drop(kids[q].info)
  {
    if p < |PrunedKids(drop, kids, n - 1)| {
      q := PrunedFrom(drop, kids, n - 1, p);
    } else {
      q := n - 1;
    }
  }

  lemma {:induction false} PrunedIsPurged(drop: Info -> bool, t: Tree)
    ensures Purged(drop, Pruned(drop, t)) && Pruned(drop, t).info == t.info
  {
    var kids := PrunedKids(drop, t.kids, |t.kids|);
    forall p | 0 <= p < |kids|
      ensures !drop(kids[p].info) && Purged(drop, kids[p])
    {
      var q := PrunedFrom(drop, t.kids, |t.kids|, p);
      PrunedIsPurged(drop, t.kids[q]);
    }
  }

  /** A purged tree stays as it is, so cleaning twice is cleaning once. */
  lemma {:induction false} PurgedStays(drop: Info -> bool, t: Tree)
    requires Purged(drop, t)
    ensures Pruned(drop, t) == t
    decreases t, 0
  {
    PurgedKidsStay(drop, t.kids, |t.kids|);
  }

  lemma {:induction false} PurgedKidsStay(drop: Info -> bool, kids: seq<Tree>, n: nat)
    requires n <= |kids|
    requires forall i :: 0 <= i < |kids| ==> !drop(kids[i].info) && Purged(drop, kids[i])
    ensures PrunedKids(drop, kids, n) == kids[..n]
    decreases kids, n
  {
    if n > 0 {
      PurgedKidsStay(drop, kids, n - 1);
      PurgedStays(drop, kids[n - 1]);
    }
  }

  lemma PruningTwice(drop: Info -> bool, t: Tree)
    ensures Pruned(drop, Pruned(drop, t)) == Pruned(drop, t)
  {
    PrunedIsPurged(drop, t);
    PurgedStays(drop, Pruned(drop, t));
  }

  lemma {:induction false} PurgedShapeStays(drop: Info -> bool, s: Shape)
    requires Purged(drop, Abs(s))
    ensures Cleaned(drop, s) == s
    decreases s, 0
  {
    PurgedShapesStay(drop, s, |s.kids|);
  }

  lemma {:induction false} PurgedShapesStay(drop: Info -> bool, s: Shape, n: nat)
    requires n <= |s.kids| && Purged(drop, Abs(s))
    ensures CleanedKids(drop, s.kids, n) == s.kids[..n]
    decreases s.kids, n
  {
    if n > 0 {
      PurgedShapesStay(drop, s, n - 1);
      assert Abs(s).kids[n - 1] == Abs(s.kids[n - 1]);
      PurgedShapeStays(drop, s.kids[n - 1]);
      assert s.kids[..n] == s.kids[..n - 1] + [s.kids[n - 1]];
    }
  }

  /** Cleaning the linked tree a second time changes no link. */
  lemma CleaningTwice(drop: Info -> bool, s: Shape)
    ensures Cleaned(drop, Cleaned(drop, s)) == Cleaned(drop, s)
  {
    AbsCleaned(drop, s);
    PrunedIsPurged(drop, Abs(s));
    PurgedShapeStays(drop, Cleaned(drop, s));
  }

  // ----- Which nodes survive

  /** A position in a tree: which child to go down to, again and again. */
  ghost predicate IsPath(s: Shape, p: seq<nat>)
    decreases |p|
  {
    p == [] || (p[0] < |s.kids| && IsPath(s.kids[p[0]], p[1..]))
  }

  ghost function NodeAt(s: Shape, p: seq<nat>): Node
    requires IsPath(s, p)
    decreases |p|
  {
    if p == [] then s.node else NodeAt(s.kids[p[0]], p[1..])
  }

  ghost predicate IsTreePath(t: Tree, p: seq<nat>)
    decreases |p|
  {
    p == [] || (p[0] < |t.kids| && IsTreePath(t.kids[p[0]], p[1..]))
  }

  ghost function InfoAt(t: Tree, p: seq<nat>): Info
    requires IsTreePath(t, p)
    decreases |p|
  {
    if p == [] then t.info else InfoAt(t.kids[p[0]], p[1..])
  }

  /** The plain tree has the same positions, with what the nodes there hold. */
  lemma {:induction false} AbsHasPaths(s: Shape, p: seq<nat>)
    ensures IsTreePath(Abs(s), p) <==> IsPath(s, p)
    ensures IsPath(s, p) ==> InfoAt(Abs(s), p) == NodeAt(s, p).info
    decreases |p|
  {
    if p != [] && p[0] < |s.kids| {
      AbsHasPaths(s.kids[p[0]], p[1..]);
    }
  }

  /** `x` stands before `y` in the document. */
  ghost predicate Precedes(nodes: seq<Node>, x: Node, y: Node) {
    exists i, j :: 0 <= i < j < |nodes| && nodes[i] == x && nodes[j] == y
  }

  /** The position `p` is above `q`, or in a child further left where they part. */
  ghost predicate Earlier(p: seq<nat>, q: seq<nat>)
    decreases |p|
  {
    q != [] && (p == [] || p[0] < q[0] || (p[0] == q[0] && Earlier(p[1..], q[1..])))
  }

  lemma {:induction false} NodeIsListed(s: Shape, p: seq<nat>)
    requires IsPath(s, p)
    ensures NodeAt(s, p) in PreOrder(s)
    decreases |p|
  {
    if p != [] {
      NodeIsListed(s.kids[p[0]], p[1..]);
      PreKidsHas(s.kids, |s.kids|, p[0], NodeAt(s, p));
    }
  }

  lemma {:induction false} ListedHasPath(s: Shape, x: Node) returns (p: seq<nat>)
    requires x in PreOrder(s)
    ensures IsPath(s, p) && NodeAt(s, p) == x
    decreases s
  {
    if x == s.node {
      p := [];
    } else {
      var j := InPreKids(s.kids, |s.kids|, x);
      var rest := ListedHasPath(s.kids[j], x);
      p := [j] + rest;
      assert p[1..] == rest;
    }
  }

  lemma PrecedesWithin(a: seq<Node>, b: seq<Node>, c: seq<Node>, x: Node, y: Node)
    requires Precedes(b, x, y)
    ensures Precedes(a + b + c, x, y)
  {
    var i, j :| 0 <= i < j < |b| && b[i] == x && b[j] == y;
    var all := a + b + c;
    assert all[|a| + i] == x && all[|a| + j] == y;
  }

  lemma PrecedesAcross(a: seq<Node>, b: seq<Node>, x: Node, y: Node)
    requires x in a && y in b
    ensures Precedes(a + b, x, y)
  {
    var i :| 0 <= i < |a| && a[i] == x;
    var j :| 0 <= j < |b| && b[j] == y;
    var all := a + b;
    assert all[i] == x && all[|a| + j] == y;
  }

  lemma {:induction false} KidPrecedes(kids: seq<Shape>, n: nat, j: nat, x: Node, y: Node)
    requires j < n <= |kids| && Precedes(PreOrder(kids[j]), x, y)
    ensures Precedes(PreKids(kids, n), x, y)
  {
    var before, last := PreKids(kids, n - 1), PreOrder(kids[n - 1]);
    if j == n - 1 {
      PrecedesWithin(before, last, [], x, y);
      assert before + last + [] == PreKids(kids, n);
    } else {
      KidPrecedes(kids, n - 1, j, x, y);
      PrecedesWithin([], before, last, x, y);
      assert [] + before + last == PreKids(kids, n);
    }
  }

  lemma {:induction false} KidsPrecede(kids: seq<Shape>, n: nat, i: nat, j: nat, x: Node, y: Node)
    requires i < j < n <= |kids| && x in PreOrder(kids[i]) && y in PreOrder(kids[j])
    ensures Precedes(PreKids(kids, n), x, y)
  {
    var before, last := PreKids(kids, n - 1), PreOrder(kids[n - 1]);
    if j == n - 1 {
      PreKidsHas(kids, n - 1, i, x);
      PrecedesAcross(before, last, x, y);
    } else {
      KidsPrecede(kids, n - 1, i, j, x, y);
      PrecedesWithin([], before, last, x, y);
      assert [] + before + last == PreKids(kids, n);
    }
  }

  /** The list is in the order of the document: a node comes before all below it, and
      before all that hang off a child further right of a node above it. */
  lemma {:induction false} DocumentOrder(s: Shape, p: seq<nat>, q: seq<nat>)
    requires IsPath(s, p) && IsPath(s, q) && Earlier(p, q)
    ensures Precedes(PreOrder(s), NodeAt(s, p), NodeAt(s, q))
    decreases |p|
  {
    var kids := PreKids(s.kids, |s.kids|);
    var x, y := NodeAt(s, p), NodeAt(s, q);
    NodeIsListed(s.kids[q[0]], q[1..]);
    if p == [] {
      PreKidsHas(s.kids, |s.kids|, q[0], y);
      PrecedesAcross([s.node], kids, x, y);
    } else {
      if p[0] < q[0] {
        NodeIsListed(s.kids[p[0]], p[1..]);
        KidsPrecede(s.kids, |s.kids|, p[0], q[0], x, y);
      } else {
        DocumentOrder(s.kids[p[0]], p[1..], q[1..]);
        KidPrecedes(s.kids, |s.kids|, p[0], x, y);
      }
      PrecedesWithin([s.node], kids, [], x, y);
      assert [s.node] + kids + [] == PreOrder(s);
    }
  }

  /** Neither the node at `p` nor any node between it and the root is dropped. */
  ghost predicate Spared(drop: Info -> bool, s: Shape, p: seq<nat>)
    requires IsPath(s, p)
    decreases |p|
  {
    p == [] || (!drop(s.kids[p[0]].node.info) && Spared(drop, s.kids[p[0]], p[1..]))
  }

  lemma {:induction false} InPreKids(kids: seq<Shape>, n: nat, x: Node) returns (j: nat)
    requires n <= |kids| && x in PreKids(kids, n)
    ensures j < n && x in PreOrder(kids[j])
  {
    if x in PreOrder(kids[n - 1]) {
      j := n - 1;
    } else {
      j := InPreKids(kids, n - 1, x);
    }
  }

  lemma {:induction false} PreKidsHas(kids: seq<Shape>, n: nat, j: nat, x: Node)
    requires j < n <= |kids| && x in PreOrder(kids[j])
    ensures x in PreKids(kids, n)
  {
    if j < n - 1 {
      PreKidsHas(kids, n - 1, j, x);
    }
  }

  lemma {:induction false} CleanedKeeps(drop: Info -> bool, kids: seq<Shape>, n: nat, q: nat) returns (p: nat)
    requires q < n <= |kids| && !drop(kids[q].node.info)
    ensures p < |CleanedKids(drop, kids, n)| && CleanedKids(drop, kids, n)[p] == Cleaned(drop, kids[q])
  {
    if q < n - 1 {
      p := CleanedKeeps(drop, kids, n - 1, q);
    } else {
      p := |CleanedKids(drop, kids, n - 1)|;
    }
  }

  lemma {:induction false} SurvivorIsSpared(drop: Info -> bool, s: Shape, x: Node) returns (p: seq<nat>)
    requires x in PreOrder(Cleaned(drop, s))
    ensures IsPath(s, p) && Spared(drop, s, p) && NodeAt(s, p) == x
    decreases s
  {
    if x == s.node {
      p := [];
    } else {
      var kids := CleanedKids(drop, s.kids, |s.kids|);
      var j := InPreKids(kids, |kids|, x);
      var q := CleanedFrom(drop, s.kids, |s.kids|, j);
      var rest := SurvivorIsSpared(drop, s.kids[q], x);
      p := [q] + rest;
      assert p[1..] == rest;
    }
  }

  lemma {:induction false} SparedSurvives(drop: Info -> bool, s: Shape, p: seq<nat>)
    requires IsPath(s, p) && Spared(drop, s, p)
    ensures NodeAt(s, p) in PreOrder(Cleaned(drop, s))
    decreases |p|
  {
    if p != [] {
      var kids := CleanedKids(drop, s.kids, |s.kids|);
      SparedSurvives(drop, s.kids[p[0]], p[1..]);
      var j := CleanedKeeps(drop, s.kids, |s.kids|, p[0]);
      PreKidsHas(kids, |kids|, j, NodeAt(s, p));
    }
  }

  /** A node survives exactly when nothing on the way to it is dropped. */
  lemma SurvivorsAreSpared(drop: Info -> bool, s: Shape, x: Node)
    ensures x in PreOrder(Cleaned(drop, s)) <==> exists p :: IsPath(s, p) && Spared(drop, s, p) && NodeAt(s, p) == x
  {
    if x in PreOrder(Cleaned(drop, s)) {
      var p := SurvivorIsSpared(drop, s, x);
    }
    if p :| IsPath(s, p) && Spared(drop, s, p) && NodeAt(s, p) == x {
      SparedSurvives(drop, s, p);
    }
  }

  /** `a` is what is left of `b` when some elements are crossed out. */
  ghost predicate Sublist(a: seq<Node>, b: seq<Node>)
    decreases |b|
  {
    a == [] || (b != [] &&
      var front := b[..|b| - 1];
      (a[|a| - 1] == b[|b| - 1] && Sublist(a[..|a| - 1], front)) || Sublist(a, front))
  }

  lemma {:induction false} SublistJoin(a: seq<Node>, b: seq<Node>, c: seq<Node>, d: seq<Node>)
    requires Sublist(a, b) && Sublist(c, d)
    ensures Sublist(a + c, b + d)
    decreases |d|
  {
    if c == [] && d == [] {
      assert a + c == a && b + d == b;
    } else {
      var front := d[..|d| - 1];
      assert (b + d)[..|b + d| - 1] == b + front;
      if c != [] && c[|c| - 1] == d[|d| - 1] && Sublist(c[..|c| - 1], front) {
        SublistJoin(a, b, c[..|c| - 1], front);
        assert (a + c)[..|a + c| - 1] == a + c[..|c| - 1];
      } else {
        SublistJoin(a, b, c, front);
      }
    }
  }

  /** The survivors keep their order. */
  lemma {:induction false} SurvivorsInOrder(drop: Info -> bool, s: Shape)
    ensures Sublist(PreOrder(Cleaned(drop, s)), PreOrder(s))
    decreases s, 0
  {
    var kids := CleanedKids(drop, s.kids, |s.kids|);
    SurvivingKidsInOrder(drop, s.kids, |s.kids|);
    assert Sublist([s.node], [s.node]) by {
      assert Sublist([s.node][..0], [s.node][..0]);
    }
    SublistJoin([s.node], [s.node], PreKids(kids, |kids|), PreKids(s.kids, |s.kids|));
  }

  lemma {:induction false} SurvivingKidsInOrder(drop: Info -> bool, kids: seq<Shape>, n: nat)
    requires n <= |kids|
    ensures Sublist(PreKids(CleanedKids(drop, kids, n), |CleanedKids(drop, kids, n)|), PreKids(kids, n))
    decreases kids, n
  {
    if n > 0 {
      var before := CleanedKids(drop, kids, n - 1);
      SurvivingKidsInOrder(drop, kids, n - 1);
      SurvivorsInOrder(drop, kids[n - 1]);
      if drop(kids[n - 1].node.info) {
        SublistJoin(PreKids(before, |before|), PreKids(kids, n - 1), [], PreOrder(kids[n - 1]));
        assert PreKids(before, |before|) + [] == PreKids(before, |before|);
      } else {
        var last := Cleaned(drop, kids[n - 1]);
        PreKidsSame(before, before + [last], |before|);
        SublistJoin(PreKids(before, |before|), PreKids(kids, n - 1), PreOrder(last), PreOrder(kids[n - 1]));
      }
    }
  }

  lemma {:induction false} PreKidsSame(a: seq<Shape>, b: seq<Shape>, n: nat)
    requires n <= |a| && n <= |b|
    requires forall i :: 0 <= i < n ==> a[i] == b[i]
    ensures PreKids(a, n) == PreKids(b, n)
  {
    if n > 0 {
      PreKidsSame(a, b, n - 1);
    }
  }
}
