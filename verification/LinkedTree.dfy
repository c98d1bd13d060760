/** The linked tree of `html.Node`s and the operations the extractor does on it
    in place: unlinking children while walking over them, and deep copies. */
module LinkedTree {
  datatype NodeType = ErrorNode | TextNode | DocumentNode | ElementNode | CommentNode | DoctypeNode | RawNode

  datatype Attribute = Attribute(namespace: string, key: string, val: string)

  /** The parts of a node that nobody here changes once it exists. */
  datatype Info = Info(kind: NodeType, dataAtom: nat, data: string, namespace: string, attr: seq<Attribute>)

  class Node {
    const info: Info
    var Parent: Node?
    var FirstChild: Node?
    var LastChild: Node?
    var PrevSibling: Node?
    var NextSibling: Node?

    constructor (info: Info)
      ensures this.info == info
      ensures Parent == null && FirstChild == null && LastChild == null
      ensures PrevSibling == null && NextSibling == null
    {
      this.info := info;
      Parent, FirstChild, LastChild, PrevSibling, NextSibling := null, null, null, null, null;
    }
  }

  /** The links from a node to its surroundings. */
  ghost function Place(n: Node): (Node?, Node?, Node?)
    reads n`Parent, n`PrevSibling, n`NextSibling
  {
    (n.Parent, n.PrevSibling, n.NextSibling)
  }

  /** The shape of a linked tree: which nodes are where.  `below` is a region
      of nodes that holds all those under the root. */
  datatype Shape = Shape(node: Node, kids: seq<Shape>, below: set<Node>) {
    ghost function Region(): set<Node> {
      {node} + below
    }
  }

  /** A document tree as a value. */
  datatype Tree = Tree(info: Info, kids: seq<Tree>)

  /** The trees of a child list lie apart from each other. */
  ghost predicate Apart(kids: seq<Shape>) {
    && (forall i {:trigger Distinct(kids[i])} :: 0 <= i < |kids| ==> Distinct(kids[i]))
    && (forall i, j {:trigger kids[i].Region(), kids[j].Region()} :: 0 <= i < j < |kids| ==> kids[i].Region() !! kids[j].Region())
  }

  ghost predicate Within(kids: seq<Shape>, region: set<Node>) {
    forall i {:trigger kids[i].Region()} :: 0 <= i < |kids| ==> kids[i].Region() <= region
  }

  /** No node is at two places. */
  ghost predicate Distinct(s: Shape) {
    Apart(s.kids) && Within(s.kids, s.below) && s.node !in s.below
  }

  ghost function At(kids: seq<Shape>, i: int): Node? {
    if 0 <= i < |kids| then kids[i].node else null
  }

  /** The child at place `i` of the list points at its parent and neighbours. */
  ghost predicate Placed(node: Node, kids: seq<Shape>, i: nat)
    requires i < |kids|
    reads kids[i].node`Parent, kids[i].node`PrevSibling, kids[i].node`NextSibling
  {
    && kids[i].node.Parent == node
    && kids[i].node.PrevSibling == At(kids, i - 1)
    && kids[i].node.NextSibling == At(kids, i + 1)
  }

  /** `node` and `kids` point at each other the way a child list does. */
  ghost predicate ChildList(node: Node, kids: seq<Shape>)
    reads node`FirstChild, node`LastChild
    reads set i | 0 <= i < |kids| :: kids[i].node
  {
    && node.FirstChild == At(kids, 0)
    && node.LastChild == At(kids, |kids| - 1)
    && forall i :: 0 <= i < |kids| ==> Placed(node, kids, i)
  }

  /** The nodes of `s` are linked as `s` says. */
  ghost predicate Linked(s: Shape)
    reads s.node`FirstChild, s.node`LastChild, s.below
    decreases s
  {
    && (forall i {:trigger s.kids[i].node} :: 0 <= i < |s.kids| ==> s.kids[i].node in s.below)
    && ChildList(s.node, s.kids)
    && forall i {:trigger Linked(s.kids[i])} :: 0 <= i < |s.kids| ==>
         s.kids[i].Region() <= s.below && Linked(s.kids[i])
  }

  /** The document tree that a linked tree stands for. */
  ghost function Abs(s: Shape): Tree {
    Tree(s.node.info, seq(|s.kids|, i requires 0 <= i < |s.kids| => Abs(s.kids[i])))
  }

  ghost function Maybe(n: Node?): set<Node> {
    if n == null then {} else {n}
  }

  ghost function Without(kids: seq<Shape>, i: nat): (rest: seq<Shape>)
    requires i < |kids|
    ensures |rest| == |kids| - 1
    ensures forall j {:trigger rest[j]} :: 0 <= j < |rest| ==> rest[j] == if j < i then kids[j] else kids[j + 1]
  {
    kids[..i] + kids[i + 1..]
  }

  lemma WithoutAt(kids: seq<Shape>, i: nat, j: int)
    requires i < |kids|
    ensures At(Without(kids, i), j) == if j < i then At(kids, j) else At(kids, j + 1)
  {
  }

  // ----- `html.Node.RemoveChild` and `html.Node.AppendChild`

  method RemoveChild(node: Node, child: Node, ghost kids: seq<Shape>, ghost i: nat)
    requires i < |kids| && kids[i].node == child
    requires ChildList(node, kids)
    requires forall j, k :: 0 <= j < k < |kids| ==> kids[j].node != kids[k].node
    requires forall j :: 0 <= j < |kids| ==> kids[j].node != node
    modifies node`FirstChild, node`LastChild, child`Parent, child`PrevSibling, child`NextSibling
    modifies Maybe(child.PrevSibling)`NextSibling, Maybe(child.NextSibling)`PrevSibling
    ensures ChildList(node, Without(kids, i))
    ensures child.Parent == null && child.PrevSibling == null && child.NextSibling == null
  {
    assert Placed(node, kids, i);
    if i > 0 {
      assert Placed(node, kids, i - 1);
    }
    if i + 1 < |kids| {
      assert Placed(node, kids, i + 1);
    }
    if node.FirstChild == child {
      node.FirstChild := child.NextSibling;
    }
    if child.NextSibling != null {
      child.NextSibling.PrevSibling := child.PrevSibling;
    }
    if node.LastChild == child {
      node.LastChild := child.PrevSibling;
    }
    if child.PrevSibling != null {
      child.PrevSibling.NextSibling := child.NextSibling;
    }
    child.Parent := null;
    child.PrevSibling := null;
    child.NextSibling := null;
    ghost var rest := Without(kids, i);
    forall j | 0 <= j < |rest|
      ensures Placed(node, rest, j)
    {
      ghost var k := if j < i then j else j + 1;
      assert old(Placed(node, kids, k));
      WithoutAt(kids, i, j - 1);
      WithoutAt(kids, i, j + 1);
    }
  }

  method AppendChild(node: Node, child: Node, ghost kids: seq<Shape>, ghost c: Shape)
    requires c.node == child
    requires child.Parent == null && child.PrevSibling == null && child.NextSibling == null
    requires ChildList(node, kids)
    requires node != child && forall j :: 0 <= j < |kids| ==> kids[j].node != child && kids[j].node != node
    requires forall j, k :: 0 <= j < k < |kids| ==> kids[j].node != kids[k].node
    modifies node`FirstChild, node`LastChild, child`Parent, child`PrevSibling, Maybe(node.LastChild)`NextSibling
    ensures ChildList(node, kids + [c])
  {
    var last := node.LastChild;
    if last != null {
      last.NextSibling := child;
    } else {
      node.FirstChild := child;
    }
    node.LastChild := child;
    child.Parent := node;
    child.PrevSibling := last;
    forall j | 0 <= j < |kids| + 1
      ensures Placed(node, kids + [c], j)
    {
      assert j < |kids| ==> old(Placed(node, kids, j));
    }
  }

  lemma ApartJoin(a: seq<Shape>, b: seq<Shape>)
    requires Apart(a) && Apart(b)
    requires forall i, j :: 0 <= i < |a| && 0 <= j < |b| ==> a[i].Region() !! b[j].Region()
    ensures Apart(a + b)
  {
    var c := a + b;
    forall i | 0 <= i < |c|
      ensures Distinct(c[i])
    {
      assert c[i] == if i < |a| then a[i] else b[i - |a|];
    }
    forall i, j | 0 <= i < j < |c|
      ensures c[i].Region() !! c[j].Region()
    {
      if j < |a| {
        assert a[i].Region() !! a[j].Region();
      } else if i < |a| {
        assert a[i].Region() !! b[j - |a|].Region();
      } else {
        assert b[i - |a|].Region() !! b[j - |a|].Region();
      }
    }
  }

  lemma ApartSuffix(kids: seq<Shape>, n: nat)
    requires n <= |kids| && Apart(kids)
    ensures Apart(kids[n..])
  {
  }

  // ----- Cleaning

  /** `s` without the subtrees below its root whose root node `drop` rejects. */
  ghost function Cleaned(drop: Info -> bool, s: Shape): Shape
    decreases s, 0
  {
    Shape(s.node, CleanedKids(drop, s.kids, |s.kids|), s.below)
  }

  /** What cleaning leaves of the first `n` children. */
  ghost function CleanedKids(drop: Info -> bool, kids: seq<Shape>, n: nat): seq<Shape>
    requires n <= |kids|
    decreases kids, n
  {
    if n == 0 then []
    else if drop(kids[n - 1].node.info) then CleanedKids(drop, kids, n - 1)
    else CleanedKids(drop, kids, n - 1) + [Cleaned(drop, kids[n - 1])]
  }

  /** Every survivor is some child, cleaned. */
  lemma {:induction false} CleanedFrom(drop: Info -> bool, kids: seq<Shape>, n: nat, p: nat) returns (q: nat)
    requires n <= |kids| && p < |CleanedKids(drop, kids, n)|
    ensures q < n && CleanedKids(drop, kids, n)[p] == Cleaned(drop, kids[q]) && !drop(kids[q].node.info)
  {
    if p < |CleanedKids(drop, kids, n - 1)| {
      q := CleanedFrom(drop, kids, n - 1, p);
    } else {
      q := n - 1;
    }
  }

  lemma {:induction false} CleanedDistinct(drop: Info -> bool, s: Shape)
    requires Distinct(s)
    ensures Distinct(Cleaned(drop, s))
    decreases s, 0
  {
    CleanedApart(drop, s.kids, |s.kids|);
    CleanedWithin(drop, s.kids, |s.kids|, s.below);
  }

  lemma CleanedWithin(drop: Info -> bool, kids: seq<Shape>, n: nat, region: set<Node>)
    requires n <= |kids| && Within(kids, region)
    ensures Within(CleanedKids(drop, kids, n), region)
  {
    forall p | 0 <= p < |CleanedKids(drop, kids, n)|
      ensures CleanedKids(drop, kids, n)[p].Region() <= region
    {
      var q := CleanedFrom(drop, kids, n, p);
      assert kids[q].Region() <= region;
    }
  }

  lemma CleanedAvoids(drop: Info -> bool, kids: seq<Shape>, n: nat, j: nat)
    requires n <= j < |kids| && Apart(kids)
    ensures forall p :: 0 <= p < |CleanedKids(drop, kids, n)| ==> CleanedKids(drop, kids, n)[p].Region() !! kids[j].Region()
  {
    forall p | 0 <= p < |CleanedKids(drop, kids, n)|
      ensures CleanedKids(drop, kids, n)[p].Region() !! kids[j].Region()
    {
      var q := CleanedFrom(drop, kids, n, p);
      assert kids[q].Region() !! kids[j].Region();
    }
  }

  lemma {:induction false} CleanedApart(drop: Info -> bool, kids: seq<Shape>, n: nat)
    requires n <= |kids| && Apart(kids)
    ensures Apart(CleanedKids(drop, kids, n))
    decreases kids, n
  {
    if n > 0 {
      CleanedApart(drop, kids, n - 1);
      CleanedAvoids(drop, kids, n - 1, n - 1);
      CleanedDistinct(drop, kids[n - 1]);
    }
  }

  /** While the walk is at child `n`: what is left of the children before it,
      and the children it has not seen. */
  ghost function Current(drop: Info -> bool, kids: seq<Shape>, n: nat): seq<Shape>
    requires n <= |kids|
  {
    CleanedKids(drop, kids, n) + kids[n..]
  }

  lemma JoinDistinct(s: Shape, done: seq<Shape>, n: nat)
    requires n <= |s.kids| && Distinct(s) && Apart(done) && Within(done, s.below)
    requires forall p, j :: 0 <= p < |done| && n <= j < |s.kids| ==> done[p].Region() !! s.kids[j].Region()
    ensures Distinct(Shape(s.node, done + s.kids[n..], s.below))
  {
    var rest := s.kids[n..];
    ApartSuffix(s.kids, n);
    forall i, j | 0 <= i < |done| && 0 <= j < |rest|
      ensures done[i].Region() !! rest[j].Region()
    {
      assert rest[j] == s.kids[n + j];
    }
    ApartJoin(done, rest);
    forall k | 0 <= k < |done + rest|
      ensures (done + rest)[k].Region() <= s.below
    {
      assert (done + rest)[k] == if k < |done| then done[k] else s.kids[n + k - |done|];
    }
  }

  lemma CurrentDistinct(drop: Info -> bool, s: Shape, n: nat)
    requires n <= |s.kids| && Distinct(s)
    ensures Distinct(Shape(s.node, Current(drop, s.kids, n), s.below))
  {
    CleanedApart(drop, s.kids, n);
    CleanedWithin(drop, s.kids, n, s.below);
    var done := CleanedKids(drop, s.kids, n);
    forall p, j | 0 <= p < |done| && n <= j < |s.kids|
      ensures done[p].Region() !! s.kids[j].Region()
    {
      CleanedAvoids(drop, s.kids, n, j);
    }
    JoinDistinct(s, done, n);
  }

  lemma RootApart(s: Shape, i: nat, k: nat)
    requires Distinct(s) && i < |s.kids| && k < |s.kids|
    ensures s.kids[i].node in s.below && s.kids[i].node != s.node
    ensures s.node !in s.kids[k].below
    ensures s.kids[i].node !in s.kids[k].below
    ensures i != k ==> s.kids[i].node != s.kids[k].node
  {
    assert s.kids[i].node in s.kids[i].Region() && s.kids[i].Region() <= s.below;
    assert Distinct(s.kids[i]) && s.kids[k].Region() <= s.below;
    assert i < k ==> s.kids[i].Region() !! s.kids[k].Region();
    assert k < i ==> s.kids[k].Region() !! s.kids[i].Region();
  }

  /** The nodes whose links change when child `i` goes, are not inside any child. */
  lemma NeighboursApart(s: Shape, i: nat, k: nat)
    requires Distinct(s) && i < |s.kids| && k < |s.kids|
    ensures Maybe(At(s.kids, i - 1)) !! s.kids[k].below
    ensures Maybe(At(s.kids, i + 1)) !! s.kids[k].below
  {
    if i > 0 {
      RootApart(s, i - 1, k);
    }
    if i + 1 < |s.kids| {
      RootApart(s, i + 1, k);
    }
  }

  /** Unlinks child `i` of a tree and leaves all other links as they are. */
  method Unlink(node: Node, child: Node, ghost s: Shape, ghost i: nat)
    requires s.node == node && i < |s.kids| && s.kids[i].node == child
    requires Distinct(s) && Linked(s)
    modifies s.Region()
    ensures Linked(Shape(s.node, Without(s.kids, i), s.below))
    ensures Place(node) == old(Place(node))
  {
    ghost var kids := s.kids;
    assert Placed(node, kids, i);
    forall j, k | 0 <= j < k < |kids|
      ensures kids[j].node != kids[k].node
    {
      RootApart(s, j, k);
    }
    forall j | 0 <= j < |kids|
      ensures kids[j].node != node && kids[j].node in s.below
    {
      RootApart(s, j, j);
    }
    label before:
    RemoveChild(node, child, kids, i);
    forall k | 0 <= k < |kids|
      ensures Linked(kids[k])
    {
      RootApart(s, i, k);
      NeighboursApart(s, i, k);
      assert old@before(Linked(kids[k]));
    }
    ghost var rest := Without(kids, i);
    forall k | 0 <= k < |rest|
      ensures Linked(rest[k]) && rest[k].Region() <= s.below
    {
      assert rest[k] == if k < i then kids[k] else kids[k + 1];
    }
  }

  /** Child `n` of the original list, where the walk stands in the current one. */
  lemma CurrentStep(drop: Info -> bool, kids: seq<Shape>, n: nat)
    requires n < |kids|
    ensures var current := Current(drop, kids, n);
            var i := |CleanedKids(drop, kids, n)|;
            && i < |current| && current[i] == kids[n]
            && At(current, i + 1) == At(kids, n + 1)
            && Current(drop, kids, n + 1) ==
               if drop(kids[n].node.info) then Without(current, i) else current[i := Cleaned(drop, kids[n])]
  {
  }

  lemma PlacedIn(s: Shape, i: nat)
    requires Linked(s) && Distinct(s) && i < |s.kids|
    ensures Placed(s.node, s.kids, i) && Linked(s.kids[i]) && Distinct(s.kids[i])
    ensures s.kids[i].Region() <= s.below && s.node !in s.kids[i].Region()
  {
  }

  lemma AtUpdate(kids: seq<Shape>, i: nat, c: Shape, j: int)
    requires i < |kids| && c.node == kids[i].node
    ensures At(kids[i := c], j) == At(kids, j)
  {
  }

  lemma RegionsApart(s: Shape, i: nat, k: nat)
    requires Distinct(s) && i < |s.kids| && k < |s.kids| && i != k
    ensures s.kids[k].Region() !! s.kids[i].Region() && s.kids[k].Region() <= s.below
  {
    assert if i < k then s.kids[i].Region() !! s.kids[k].Region() else s.kids[k].Region() !! s.kids[i].Region();
  }

  /** If only the inside of child `i` has been relinked, to `c`, every other
      child is linked as before. */
  twostate lemma SiblingStays(s: Shape, new i: nat, new c: Shape, new k: nat)
    requires i < |s.kids| && k < |s.kids| && k != i && Distinct(s) && old(Linked(s))
    requires c.node == s.kids[i].node
    requires forall x :: x in s.Region() && x !in s.kids[i].Region() ==> unchanged(x)
    ensures Placed(s.node, s.kids[i := c], k)
    ensures Linked(s.kids[k]) && s.kids[k].Region() <= s.below
  {
    AtUpdate(s.kids, i, c, k - 1);
    AtUpdate(s.kids, i, c, k + 1);
    RegionsApart(s, i, k);
    assert old(Placed(s.node, s.kids, k)) && old(Linked(s.kids[k]));
  }

  twostate lemma ParentStays(s: Shape, new i: nat, new c: Shape)
    requires i < |s.kids| && Distinct(s) && old(Linked(s))
    requires c.node == s.kids[i].node
    requires Place(s.kids[i].node) == old(Place(s.kids[i].node))
    requires forall x :: x in s.Region() && x !in s.kids[i].Region() ==> unchanged(x)
    ensures s.node.FirstChild == At(s.kids[i := c], 0)
    ensures s.node.LastChild == At(s.kids[i := c], |s.kids| - 1)
    ensures Placed(s.node, s.kids[i := c], i) && s.kids[i].Region() <= s.below
  {
    AtUpdate(s.kids, i, c, 0);
    AtUpdate(s.kids, i, c, |s.kids| - 1);
    AtUpdate(s.kids, i, c, i - 1);
    AtUpdate(s.kids, i, c, i + 1);
    RootApart(s, i, i);
    assert s.kids[i].Region() <= s.below;
    assert old(Placed(s.node, s.kids, i)) && unchanged(s.node);
  }

  lemma WithinUpdate(kids: seq<Shape>, i: nat, c: Shape, region: set<Node>)
    requires i < |kids| && Within(kids, region) && c.Region() == kids[i].Region()
    ensures Within(kids[i := c], region)
  {
    forall k {:trigger kids[i := c][k].Region()} | 0 <= k < |kids|
      ensures kids[i := c][k].Region() <= region
    {
      assert kids[k].Region() <= region;
    }
  }

  lemma LinkedFromParts(t: Shape)
    requires t.node.FirstChild == At(t.kids, 0)
    requires t.node.LastChild == At(t.kids, |t.kids| - 1)
    requires forall k :: 0 <= k < |t.kids| ==> Placed(t.node, t.kids, k)
    requires forall k {:trigger Linked(t.kids[k])} :: 0 <= k < |t.kids| ==> Linked(t.kids[k])
    requires Within(t.kids, t.below)
    ensures Linked(t)
  {
    forall k | 0 <= k < |t.kids|
      ensures t.kids[k].node in t.below
    {
      assert t.kids[k].node in t.kids[k].Region();
    }
  }

  /** What is wrong with a tree whose root has the right first and last child. */
  lemma BrokenChild(t: Shape) returns (k: nat)
    requires t.node.FirstChild == At(t.kids, 0)
    requires t.node.LastChild == At(t.kids, |t.kids| - 1)
    requires Within(t.kids, t.below)
    ensures Linked(t) || (k < |t.kids| && !(Placed(t.node, t.kids, k) && Linked(t.kids[k])))
  {
    if j :| 0 <= j < |t.kids| && !Placed(t.node, t.kids, j) {
      k := j;
    } else if j {:trigger Linked(t.kids[j])} :| 0 <= j < |t.kids| && !Linked(t.kids[j]) {
      k := j;
    } else {
      k := 0;
      LinkedFromParts(t);
    }
  }

  /** If only the inside of child `i` has been relinked, to `c`, then the whole
      tree, with `c` in that place, is linked. */
  twostate lemma ChildRelinked(s: Shape, new i: nat, new c: Shape)
    requires i < |s.kids| && Distinct(s) && old(Linked(s))
    requires c.node == s.kids[i].node && c.below == s.kids[i].below && Linked(c)
    requires Place(s.kids[i].node) == old(Place(s.kids[i].node))
    requires forall x :: x in s.Region() && x !in s.kids[i].Region() ==> unchanged(x)
    ensures Linked(Shape(s.node, s.kids[i := c], s.below))
  {
    var t := Shape(s.node, s.kids[i := c], s.below);
    ParentStays(s, i, c);
    WithinUpdate(s.kids, i, c, s.below);
    var k := BrokenChild(t);
    if k < |t.kids| && k != i {
      SiblingStays(s, i, c, k);
    }
  }

  /** What the walk does to child `i` of the current list. */
  ghost function Stepped(drop: Info -> bool, s: Shape, i: nat): Shape
    requires i < |s.kids|
  {
    if drop(s.kids[i].node.info) then Shape(s.node, Without(s.kids, i), s.below)
    else Shape(s.node, s.kids[i := Cleaned(drop, s.kids[i])], s.below)
  }

  method CleanChild(drop: Info -> bool, node: Node, child: Node, ghost s: Shape, ghost i: nat)
    requires s.node == node && i < |s.kids| && s.kids[i].node == child
    requires Distinct(s) && Linked(s)
    modifies s.Region()
    ensures Linked(Stepped(drop, s, i))
    ensures Place(node) == old(Place(node))
    decreases s.kids[i], 1
  {
    PlacedIn(s, i);
    if drop(child.info) {
      Unlink(node, child, s, i);
    } else {
      Clean(drop, child, s.kids[i]);
      ChildRelinked(s, i, Cleaned(drop, s.kids[i]));
    }
  }

  /** The tree when the walk is at child `n`. */
  ghost function Walked(drop: Info -> bool, s: Shape, n: nat): Shape
    requires n <= |s.kids|
  {
    Shape(s.node, Current(drop, s.kids, n), s.below)
  }

  lemma WalkEnds(drop: Info -> bool, s: Shape)
    ensures Walked(drop, s, 0) == s
    ensures Walked(drop, s, |s.kids|) == Cleaned(drop, s)
  {
  }

  lemma WalkStep(drop: Info -> bool, s: Shape, n: nat) returns (i: nat)
    requires n < |s.kids| && Distinct(s)
    ensures var w := Walked(drop, s, n);
            && Distinct(w) && i < |w.kids| && w.kids[i] == s.kids[n]
            && At(w.kids, i + 1) == At(s.kids, n + 1)
            && Walked(drop, s, n + 1) == Stepped(drop, w, i)
  {
    i := |CleanedKids(drop, s.kids, n)|;
    CurrentDistinct(drop, s, n);
    CurrentStep(drop, s.kids, n);
  }

  /** Where the walk finds child `n` in the current list, and what comes after it. */
  lemma AtChild(drop: Info -> bool, s: Shape, walked: Shape, n: nat, child: Node) returns (i: nat)
    requires n < |s.kids| && Distinct(s) && walked == Walked(drop, s, n) && Linked(walked) && child == s.kids[n].node
    ensures Distinct(walked) && i < |walked.kids| && walked.kids[i].node == child && walked.kids[i] == s.kids[n]
    ensures child.NextSibling == At(s.kids, n + 1)
    ensures Walked(drop, s, n + 1) == Stepped(drop, walked, i)
  {
    i := WalkStep(drop, s, n);
    PlacedIn(walked, i);
  }

  /** Walks over the children of `node`, unlinks those that `drop` rejects and
      cleans the others, all in place. */
  method Clean(drop: Info -> bool, node: Node, ghost s: Shape)
    requires s.node == node && Distinct(s) && Linked(s)
    modifies s.Region()
    ensures Linked(Cleaned(drop, s))
    ensures Place(node) == old(Place(node))
    decreases s, 0
  {
    var child := node.FirstChild;
    ghost var n := 0;
    ghost var walked := s;
    WalkEnds(drop, s);
    while child != null
      invariant 0 <= n <= |s.kids| && child == At(s.kids, n)
      invariant walked == Walked(drop, s, n) && Linked(walked)
      invariant Place(node) == old(Place(node))
      decreases |s.kids| - n
    {
      ghost var i := AtChild(drop, s, walked, n, child);
      var next := child.NextSibling;
      CleanChild(drop, node, child, walked, i);
      walked := Stepped(drop, walked, i);
      child := next;
      n := n + 1;
    }
  }

  // ----- Deep copies

  /** `s` with one more child at the end. */
  ghost function Adopted(s: Shape, c: Shape): Shape {
    Shape(s.node, s.kids + [c], s.below + c.Region())
  }

  lemma AdoptedDistinct(s: Shape, c: Shape)
    requires Distinct(s) && Distinct(c) && s.Region() !! c.Region()
    ensures Distinct(Adopted(s, c))
  {
    var kids := s.kids + [c];
    forall i | 0 <= i < |s.kids|
      ensures s.kids[i].Region() !! c.Region() && s.kids[i].Region() <= s.below
    {
    }
    ApartJoin(s.kids, [c]);
    forall i | 0 <= i < |kids|
      ensures kids[i].Region() <= s.below + c.Region()
    {
      assert kids[i] == if i < |s.kids| then s.kids[i] else c;
    }
  }

  /** A whole tree of its own, hanging nowhere. */
  ghost predicate Detached(s: Shape)
    reads s.Region()
  {
    Distinct(s) && Linked(s) && Place(s.node) == (null, null, null)
  }

  method Adopt(node: Node, child: Node, ghost s: Shape, ghost c: Shape)
    requires s.node == node && Detached(s)
    requires c.node == child && Detached(c)
    requires s.Region() !! c.Region()
    modifies s.Region(), c.Region()
    ensures Detached(Adopted(s, c))
  {
    ghost var kids := s.kids;
    forall j, k | 0 <= j < k < |kids|
      ensures kids[j].node != kids[k].node
    {
      RootApart(s, j, k);
    }
    forall j | 0 <= j < |kids|
      ensures kids[j].node != node && kids[j].node in s.below
    {
      RootApart(s, j, j);
    }
    label before:
    AppendChild(node, child, kids, c);
    AdoptedDistinct(s, c);
    ghost var t := Adopted(s, c);
    var k := BrokenChild(t);
    if k < |kids| {
      RootApart(s, |kids| - 1, k);
      assert old@before(Linked(kids[k]));
    }
  }

  lemma ChildAt(s: Shape, i: nat)
    requires Linked(s) && i < |s.kids|
    ensures Placed(s.node, s.kids, i) && Linked(s.kids[i])
    ensures s.kids[i].Region() <= s.below
  {
  }

  /** `c` holds copies of the first `n` children of `s`. */
  ghost predicate CopiedUpTo(s: Shape, c: Shape, n: nat) {
    && n == |c.kids| && n <= |s.kids| && c.node.info == s.node.info
    && forall i {:trigger Abs(c.kids[i])} :: 0 <= i < n ==> Abs(c.kids[i]) == Abs(s.kids[i])
  }

  lemma CopyStep(s: Shape, c: Shape, n: nat, k: Shape)
    requires CopiedUpTo(s, c, n) && n < |s.kids| && Abs(k) == Abs(s.kids[n])
    ensures CopiedUpTo(s, Adopted(c, k), n + 1)
  {
    forall i {:trigger Abs(Adopted(c, k).kids[i])} | 0 <= i < n + 1
      ensures Abs(Adopted(c, k).kids[i]) == Abs(s.kids[i])
    {
      assert i < n ==> Adopted(c, k).kids[i] == c.kids[i];
    }
  }

  lemma CopyDone(s: Shape, c: Shape)
    requires CopiedUpTo(s, c, |s.kids|)
    ensures Abs(c) == Abs(s)
  {
    forall i | 0 <= i < |s.kids|
      ensures Abs(c).kids[i] == Abs(s).kids[i]
    {
      assert Abs(c.kids[i]) == Abs(s.kids[i]);
    }
  }

  method CopyChild(cloned: Node, child: Node, ghost s: Shape, ghost n: nat, ghost c: Shape) returns (ghost grown: Shape)
    requires n < |s.kids| && s.kids[n].node == child && Linked(s.kids[n])
    requires c.node == cloned && Detached(c) && CopiedUpTo(s, c, n)
    modifies c.Region()
    ensures grown.node == cloned && fresh(grown.Region() - c.Region())
    ensures Detached(grown) && CopiedUpTo(s, grown, n + 1)
    decreases s.kids[n], 1
  {
    var kid, k := Clone(child, s.kids[n]);
    Adopt(cloned, kid, c, k);
    CopyStep(s, c, n, k);
    grown := Adopted(c, k);
  }

  /** A copy of the tree at `node` in new nodes. */
  method Clone(node: Node, ghost s: Shape) returns (cloned: Node, ghost c: Shape)
    requires s.node == node && Linked(s)
    ensures c.node == cloned && fresh(c.Region())
    ensures Detached(c) && Abs(c) == Abs(s)
    decreases s, 0
  {
    cloned := new Node(node.info);
    c := Shape(cloned, [], {});
    var child := node.FirstChild;
    ghost var n := 0;
    while child != null
      invariant 0 <= n <= |s.kids| && child == At(s.kids, n)
      invariant c.node == cloned && fresh(c.Region()) && Detached(c)
      invariant CopiedUpTo(s, c, n)
      decreases |s.kids| - n
    {
      ChildAt(s, n);
      c := CopyChild(cloned, child, s, n, c);
      child := child.NextSibling;
      n := n + 1;
    }
    CopyDone(s, c);
  }
}
