/** Sorting, reversing and thinning out an array of comparable things. */
module StableSort {

  /** `less(a, b)` in the caller's comparison. */
  type Comparison<!T> = (T, T) -> bool

  /** On the things of a domain the comparison is a strict weak ordering. */
  ghost predicate Orders<T(!new)>(less: Comparison<T>, dom: T -> bool) {
    && (forall a, b :: dom(a) && dom(b) && less(a, b) ==> !less(b, a))
    && (forall a, b, c :: dom(a) && dom(b) && dom(c) && less(a, c) && !less(a, b) ==> less(b, c))
  }

  ghost predicate Within<T>(dom: T -> bool, xs: seq<T>) {
    forall i :: 0 <= i < |xs| ==> dom(xs[i])
  }

  ghost predicate Ascending<T>(less: Comparison<T>, xs: seq<T>) {
    forall i, j :: 0 <= i < j < |xs| ==> !less(xs[j], xs[i])
  }

  predicate Same<T>(less: Comparison<T>, a: T, b: T) {
    !less(a, b) && !less(b, a)
  }

  /** The members that compare the same as `v`, in order. */
  function Class<T>(less: Comparison<T>, xs: seq<T>, v: T): seq<T> {
    if xs == [] then []
    else Class(less, xs[..|xs| - 1], v) + if Same(less, xs[|xs| - 1], v) then [xs[|xs| - 1]] else []
  }

  /** Things that compare the same come in the same order in both. */
  ghost predicate SameClasses<T(!new)>(less: Comparison<T>, dom: T -> bool, xs: seq<T>, ys: seq<T>) {
    forall v :: dom(v) ==> Class(less, xs, v) == Class(less, ys, v)
  }

  // ----- Insertion

  /** `x` moves to the left past everything it is less than. */
  ghost function Insert<T>(less: Comparison<T>, ys: seq<T>, x: T): (r: seq<T>)
    ensures |r| == |ys| + 1
  {
    if ys == [] || !less(x, ys[|ys| - 1]) then ys + [x]
    else Insert(less, ys[..|ys| - 1], x) + [ys[|ys| - 1]]
  }

  ghost function Sorted<T>(less: Comparison<T>, xs: seq<T>, n: nat): (r: seq<T>)
    requires n <= |xs|
    ensures |r| == n
  {
    if n == 0 then [] else Insert(less, Sorted(less, xs, n - 1), xs[n - 1])
  }

  lemma OneMore<T>(xs: seq<T>, n: nat)
    requires 0 < n <= |xs|
    ensures xs[..n] == xs[..n - 1] + [xs[n - 1]]
  {
  }

  lemma {:induction false} InsertMembers<T>(less: Comparison<T>, ys: seq<T>, x: T)
    ensures multiset(Insert(less, ys, x)) == multiset(ys) + multiset{x}
  {
    if ys != [] && less(x, ys[|ys| - 1]) {
      InsertMembers(less, ys[..|ys| - 1], x);
      assert ys == ys[..|ys| - 1] + [ys[|ys| - 1]];
    }
  }

  /** Whatever the comparison, sorting only rearranges. */
  lemma {:induction false} SortedIsPermutation<T>(less: Comparison<T>, xs: seq<T>, n: nat)
    requires n <= |xs|
    ensures multiset(Sorted(less, xs, n)) == multiset(xs[..n])
  {
    if n > 0 {
      SortedIsPermutation(less, xs, n - 1);
      InsertMembers(less, Sorted(less, xs, n - 1), xs[n - 1]);
      OneMore(xs, n);
    }
  }

  lemma {:induction false} WithinInsert<T>(less: Comparison<T>, dom: T -> bool, ys: seq<T>, x: T)
    requires Within(dom, ys) && dom(x)
    ensures Within(dom, Insert(less, ys, x))
  {
    if ys != [] && less(x, ys[|ys| - 1]) {
      WithinInsert(less, dom, ys[..|ys| - 1], x);
    }
  }

  /** Nothing in `ys` is greater than `z`. */
  ghost predicate Below<T>(less: Comparison<T>, ys: seq<T>, z: T) {
    forall i :: 0 <= i < |ys| ==> !less(z, ys[i])
  }

  lemma {:induction false} BelowInsert<T>(less: Comparison<T>, ys: seq<T>, x: T, z: T)
    requires Below(less, ys, z) && !less(z, x)
    ensures Below(less, Insert(less, ys, x), z)
  {
    if ys != [] && less(x, ys[|ys| - 1]) {
      BelowInsert(less, ys[..|ys| - 1], x, z);
    }
  }

  lemma {:induction false} InsertAscending<T(!new)>(less: Comparison<T>, dom: T -> bool, ys: seq<T>, x: T)
    requires Orders(less, dom) && Within(dom, ys) && dom(x) && Ascending(less, ys)
    ensures Ascending(less, Insert(less, ys, x))
  {
    if ys != [] {
      var y := ys[|ys| - 1];
      if less(x, y) {
        InsertAscending(less, dom, ys[..|ys| - 1], x);
        BelowInsert(less, ys[..|ys| - 1], x, y);
      } else {
        forall i | 0 <= i < |ys|
          ensures !less(x, ys[i])
        {
          assert !less(y, ys[i]) || i == |ys| - 1;
        }
      }
    }
  }

  lemma {:induction false} InsertClass<T(!new)>(less: Comparison<T>, dom: T -> bool, ys: seq<T>, x: T, v: T)
    requires Orders(less, dom) && Within(dom, ys) && dom(x) && dom(v)
    ensures Class(less, Insert(less, ys, x), v) == Class(less, ys + [x], v)
  {
    assert (ys + [x])[..|ys|] == ys;
    if ys != [] && less(x, ys[|ys| - 1]) {
      var front, y := ys[..|ys| - 1], ys[|ys| - 1];
      InsertClass(less, dom, front, x, v);
      assert (front + [x])[..|front|] == front;
      assert Insert(less, ys, x)[..|Insert(less, ys, x)| - 1] == Insert(less, front, x);
      assert !(Same(less, x, v) && Same(less, y, v));
    }
  }

  lemma {:induction false} SortedAscends<T(!new)>(less: Comparison<T>, dom: T -> bool, xs: seq<T>, n: nat)
    requires n <= |xs| && Orders(less, dom) && Within(dom, xs)
    ensures Within(dom, Sorted(less, xs, n)) && Ascending(less, Sorted(less, xs, n))
  {
    if n > 0 {
      SortedAscends(less, dom, xs, n - 1);
      WithinInsert(less, dom, Sorted(less, xs, n - 1), xs[n - 1]);
      InsertAscending(less, dom, Sorted(less, xs, n - 1), xs[n - 1]);
    }
  }

  lemma ClassOneMore<T>(less: Comparison<T>, xs: seq<T>, x: T, v: T)
    ensures Class(less, xs + [x], v) == Class(less, xs, v) + if Same(less, x, v) then [x] else []
  {
    assert (xs + [x])[..|xs|] == xs;
  }

  lemma ClassesJoin<T>(less: Comparison<T>, xs: seq<T>, ys: seq<T>, x: T, v: T)
    requires Class(less, xs, v) == Class(less, ys, v)
    ensures Class(less, xs + [x], v) == Class(less, ys + [x], v)
  {
    ClassOneMore(less, xs, x, v);
    ClassOneMore(less, ys, x, v);
  }

  lemma InsertKeepsClass<T(!new)>(less: Comparison<T>, dom: T -> bool, ys: seq<T>, zs: seq<T>, x: T, v: T)
    requires Orders(less, dom) && Within(dom, ys) && dom(x) && dom(v) && Class(less, ys, v) == Class(less, zs, v)
    ensures Class(less, Insert(less, ys, x), v) == Class(less, zs + [x], v)
  {
    InsertClass(less, dom, ys, x, v);
    ClassesJoin(less, ys, zs, x, v);
  }

  lemma {:induction false} SortedKeepsClasses<T(!new)>(less: Comparison<T>, dom: T -> bool, xs: seq<T>, n: nat, v: T)
    requires n <= |xs| && Orders(less, dom) && Within(dom, xs) && dom(v)
    ensures Class(less, Sorted(less, xs, n), v) == Class(less, xs[..n], v)
  {
    if n > 0 {
      SortedKeepsClasses(less, dom, xs, n - 1, v);
      SortedAscends(less, dom, xs, n - 1);
      InsertKeepsClass(less, dom, Sorted(less, xs, n - 1), xs[..n - 1], xs[n - 1], v);
      OneMore(xs, n);
    }
  }

  /** The result is in order, and what compares the same keeps its order. */
  lemma SortedIsStable<T(!new)>(less: Comparison<T>, dom: T -> bool, xs: seq<T>)
    requires Orders(less, dom) && Within(dom, xs)
    ensures var r := Sorted(less, xs, |xs|);
            && Within(dom, r) && Ascending(less, r)
            && SameClasses(less, dom, r, xs)
  {
    SortedAscends(less, dom, xs, |xs|);
    forall v | dom(v)
      ensures Class(less, Sorted(less, xs, |xs|), v) == Class(less, xs, v)
    {
      SortedKeepsClasses(less, dom, xs, |xs|, v);
      assert xs[..|xs|] == xs;
    }
  }

  // ----- Where everything comes from

  /** Thing `a` of `xs` may come before thing `b`: it did, or it is less. */
  ghost predicate MayPrecede<T>(less: Comparison<T>, xs: seq<T>, a: nat, b: nat)
    requires a < |xs| && b < |xs|
  {
    a != b && (a > b ==> less(xs[a], xs[b]))
  }

  /** Thing `i` of `ys` is thing `pos[i]` of `xs`, each at most once; what overtook
      another is less. */
  ghost predicate Arranged<T>(less: Comparison<T>, xs: seq<T>, ys: seq<T>, pos: seq<nat>) {
    && |pos| == |ys|
    && (forall i :: 0 <= i < |pos| ==> pos[i] < |xs| && ys[i] == xs[pos[i]])
    && (forall i, j :: 0 <= i < j < |pos| ==> MayPrecede(less, xs, pos[i], pos[j]))
  }

  lemma OneMoreArranged<T>(less: Comparison<T>, xs: seq<T>, ys: seq<T>, pos: seq<nat>, p: nat)
    requires Arranged(less, xs, ys, pos) && p < |xs|
    requires forall i :: 0 <= i < |pos| ==> MayPrecede(less, xs, pos[i], p)
    ensures Arranged(less, xs, ys + [xs[p]], pos + [p])
  {
  }

  lemma FrontArranged<T>(less: Comparison<T>, xs: seq<T>, ys: seq<T>, pos: seq<nat>)
    requires Arranged(less, xs, ys, pos) && pos != []
    ensures var n := |pos| - 1;
            && Arranged(less, xs, ys[..n], pos[..n]) && ys[n] == xs[pos[n]]
            && forall i :: 0 <= i < n ==> MayPrecede(less, xs, pos[..n][i], pos[n]) && pos[..n][i] in pos
  {
  }

  lemma {:induction false} InsertArranged<T>(less: Comparison<T>, xs: seq<T>, ys: seq<T>, pos: seq<nat>, p: nat) returns (r: seq<nat>)
    requires Arranged(less, xs, ys, pos) && p < |xs| && forall i :: 0 <= i < |pos| ==> pos[i] < p
    ensures Arranged(less, xs, Insert(less, ys, xs[p]), r) && forall i :: 0 <= i < |r| ==> r[i] == p || r[i] in pos
  {
    if ys == [] || !less(xs[p], ys[|ys| - 1]) {
      OneMoreArranged(less, xs, ys, pos, p);
      r := pos + [p];
    } else {
      var front, last := pos[..|pos| - 1], pos[|pos| - 1];
      FrontArranged(less, xs, ys, pos);
      var before := InsertArranged(less, xs, ys[..|ys| - 1], front, p);
      forall i | 0 <= i < |before|
        ensures MayPrecede(less, xs, before[i], last)
      {
        if before[i] != p {
          var k :| 0 <= k < |front| && front[k] == before[i];
        }
      }
      OneMoreArranged(less, xs, Insert(less, ys[..|ys| - 1], xs[p]), before, last);
      r := before + [last];
    }
  }

  /** Sorting overtakes only what is greater, whatever the comparison. */
  lemma {:induction false} SortedArranged<T>(less: Comparison<T>, xs: seq<T>, n: nat) returns (pos: seq<nat>)
    requires n <= |xs|
    ensures Arranged(less, xs, Sorted(less, xs, n), pos) && forall i :: 0 <= i < |pos| ==> pos[i] < n
  {
    if n == 0 {
      pos := [];
    } else {
      var before := SortedArranged(less, xs, n - 1);
      pos := InsertArranged(less, xs, Sorted(less, xs, n - 1), before, n - 1);
    }
  }

  // ----- There is only one stable sort

  lemma {:induction false} ClassMembers<T>(less: Comparison<T>, xs: seq<T>, v: T, w: T)
    requires w in Class(less, xs, v)
    ensures w in xs
  {
    if xs != [] && w in Class(less, xs[..|xs| - 1], v) {
      ClassMembers(less, xs[..|xs| - 1], v, w);
    }
  }

  lemma LastIsInItsClass<T(!new)>(less: Comparison<T>, dom: T -> bool, xs: seq<T>)
    requires Orders(less, dom) && Within(dom, xs)
    ensures xs != [] ==> xs[|xs| - 1] in Class(less, xs, xs[|xs| - 1])
  {
  }

  lemma SamePrefix<T>(xs: seq<T>, ys: seq<T>, tail: seq<T>)
    requires xs + tail == ys + tail
    ensures xs == ys
  {
    assert xs == (xs + tail)[..|xs|] && ys == (ys + tail)[..|ys|];
  }

  lemma LastsAgree<T(!new)>(less: Comparison<T>, dom: T -> bool, xs: seq<T>, ys: seq<T>)
    requires Orders(less, dom) && Within(dom, xs) && Within(dom, ys) && xs != [] && ys != []
    requires Ascending(less, xs) && Ascending(less, ys) && SameClasses(less, dom, xs, ys)
    ensures xs[|xs| - 1] == ys[|ys| - 1]
  {
    var x, y := xs[|xs| - 1], ys[|ys| - 1];
    LastIsInItsClass(less, dom, xs);
    LastIsInItsClass(less, dom, ys);
    ClassMembers(less, ys, x, x);
    ClassMembers(less, xs, y, y);
    assert Same(less, y, x);
    assert Class(less, xs, x)[|Class(less, xs, x)| - 1] == x;
    assert Class(less, ys, x)[|Class(less, ys, x)| - 1] == y;
  }

  lemma FrontsAgree<T(!new)>(less: Comparison<T>, dom: T -> bool, xs: seq<T>, ys: seq<T>, x: T)
    requires SameClasses(less, dom, xs + [x], ys + [x])
    ensures SameClasses(less, dom, xs, ys)
  {
    forall v | dom(v)
      ensures Class(less, xs, v) == Class(less, ys, v)
    {
      assert Class(less, xs + [x], v) == Class(less, ys + [x], v);
      ClassOneMore(less, xs, x, v);
      ClassOneMore(less, ys, x, v);
      SamePrefix(Class(less, xs, v), Class(less, ys, v), if Same(less, x, v) then [x] else []);
    }
  }

  lemma FrontIsOrdered<T>(less: Comparison<T>, dom: T -> bool, xs: seq<T>)
    requires Within(dom, xs) && Ascending(less, xs) && xs != []
    ensures var front := xs[..|xs| - 1];
            Within(dom, front) && Ascending(less, front) && xs == front + [xs[|xs| - 1]]
  {
  }

  /** Two arrangements in ascending order with the same classes are the same. */
  lemma {:induction false} StableSortIsUnique<T(!new)>(less: Comparison<T>, dom: T -> bool, xs: seq<T>, ys: seq<T>)
    requires Orders(less, dom) && Within(dom, xs) && Within(dom, ys)
    requires Ascending(less, xs) && Ascending(less, ys) && SameClasses(less, dom, xs, ys)
    ensures xs == ys
  {
    if xs == [] || ys == [] {
      LastIsInItsClass(less, dom, xs);
      LastIsInItsClass(less, dom, ys);
    } else {
      var xs', ys', x := xs[..|xs| - 1], ys[..|ys| - 1], xs[|xs| - 1];
      LastsAgree(less, dom, xs, ys);
      FrontIsOrdered(less, dom, xs);
      FrontIsOrdered(less, dom, ys);
      FrontsAgree(less, dom, xs', ys', x);
      StableSortIsUnique(less, dom, xs', ys');
    }
  }

  /** Sorting what is sorted changes nothing. */
  lemma SortedTwice<T(!new)>(less: Comparison<T>, dom: T -> bool, xs: seq<T>)
    requires Orders(less, dom) && Within(dom, xs)
    ensures var r := Sorted(less, xs, |xs|); Sorted(less, r, |r|) == r
  {
    var r := Sorted(less, xs, |xs|);
    SortedIsStable(less, dom, xs);
    SortedIsStable(less, dom, r);
    StableSortIsUnique(less, dom, Sorted(less, r, |r|), r);
  }

  // ----- In place

  /** Where the insertion of `x` into `before` stands: it has come down to `j`. */
  ghost predicate Moving<T>(less: Comparison<T>, a: seq<T>, was: seq<T>, before: seq<T>, i: nat, j: nat)
    requires i < |a| == |was| && |before| == i && j <= i
  {
    && a[..j] == before[..j] && a[j] == was[i] && a[j + 1..i + 1] == before[j..] && a[i + 1..] == was[i + 1..]
    && Insert(less, before, was[i]) == Insert(less, before[..j], was[i]) + before[j..]
  }

  lemma MovesOn<T>(less: Comparison<T>, a: seq<T>, b: seq<T>, was: seq<T>, before: seq<T>, i: nat, j: nat)
    requires i < |a| == |was| == |b| && |before| == i && 0 < j <= i
    requires Moving(less, a, was, before, i, j) && less(a[j], a[j - 1])
    requires b == a[j := a[j - 1]][j - 1 := a[j]]
    ensures Moving(less, b, was, before, i, j - 1)
  {
    assert a[j - 1] == before[j - 1];
    assert before[..j][..j - 1] == before[..j - 1];
    assert before[j - 1..] == [before[j - 1]] + before[j..];
    assert b[j..i + 1] == [a[j - 1]] + a[j + 1..i + 1];
    assert b[..j - 1] == a[..j - 1] == a[..j][..j - 1];
  }

  lemma MoveEnds<T>(less: Comparison<T>, a: seq<T>, was: seq<T>, before: seq<T>, i: nat, j: nat)
    requires i < |a| == |was| && |before| == i && j <= i
    requires Moving(less, a, was, before, i, j) && (j == 0 || !less(a[j], a[j - 1]))
    ensures a[..i + 1] == Insert(less, before, was[i]) && a[i + 1..] == was[i + 1..]
  {
    assert j > 0 ==> a[j - 1] == before[j - 1];
    assert Insert(less, before[..j], was[i]) == before[..j] + [was[i]];
    assert a[..i + 1] == a[..j] + [a[j]] + a[j + 1..i + 1];
  }

  lemma MoveStarts<T>(less: Comparison<T>, a: seq<T>, was: seq<T>, before: seq<T>, i: nat)
    requires i < |a| == |was| && |before| == i && a[..i] == before && a[i..] == was[i..]
    ensures Moving(less, a, was, before, i, i)
  {
    assert before[..i] == before && before[i..] == [];
    assert a[i] == a[i..][0] && a[i + 1..] == a[i..][1..];
    assert a[i + 1..i + 1] == [];
  }

  /** Swaps the `i`-th thing down to its place among those before it. */
  method SinkDown<T>(a: array<T>, less: Comparison<T>, i: nat, ghost was: seq<T>)
    requires i < a.Length == |was|
    requires a[..i] == Sorted(less, was, i) && a[i..] == was[i..]
    modifies a
    ensures a[..i + 1] == Sorted(less, was, i + 1) && a[i + 1..] == was[i + 1..]
  {
    ghost var before := a[..i];
    MoveStarts(less, a[..], was, before, i);
    var j := i;
    while j > 0 && less(a[j], a[j - 1])
      invariant j <= i && Moving(less, a[..], was, before, i, j)
    {
      ghost var now := a[..];
      a[j], a[j - 1] := a[j - 1], a[j];
      MovesOn(less, now, a[..], was, before, i, j);
      j := j - 1;
    }
    MoveEnds(less, a[..], was, before, i, j);
  }

  /** Sorts the array in place; equal things keep their order. */
  method SortStable<T>(a: array<T>, less: Comparison<T>)
    modifies a
    ensures a[..] == Sorted(less, old(a[..]), a.Length)
  {
    ghost var was := a[..];
    if a.Length == 0 {
      return;
    }
    assert a[..1] == [a[0]] && Sorted(less, was, 0) == [];
    var i := 1;
    while i < a.Length
      invariant 1 <= i <= a.Length && a[..i] == Sorted(less, was, i) && a[i..] == was[i..]
    {
      SinkDown(a, less, i, was);
      i := i + 1;
    }
  }

  function Reversed<T>(s: seq<T>): (r: seq<T>)
    ensures |r| == |s| && forall k :: 0 <= k < |s| ==> r[k] == s[|s| - 1 - k]
  {
    seq(|s|, k requires 0 <= k < |s| => s[|s| - 1 - k])
  }

  /** Swaps from both ends until the ends meet. */
  method ReverseInPlace<T>(a: array<T>)
    modifies a
    ensures a[..] == Reversed(old(a[..]))
  {
    var i, j := 0, a.Length - 1;
    while i < j
      invariant i + j == a.Length - 1 && 0 <= i <= j + 2
      invariant forall k :: 0 <= k < i ==> a[k] == old(a[a.Length - 1 - k])
      invariant forall k :: j < k < a.Length ==> a[k] == old(a[a.Length - 1 - k])
      invariant forall k :: i <= k <= j ==> a[k] == old(a[k])
    {
      a[i], a[j] := a[j], a[i];
      i, j := i + 1, j - 1;
    }
  }

  function Repeat<T>(x: T, n: nat): (r: seq<T>)
    ensures |r| == n && forall i :: 0 <= i < n ==> r[i] == x
  {
    seq(n, i => x)
  }

  // ----- Adjacent duplicates

  /** Drops everything that equals the one before it. */
  function Thinned<T(==)>(xs: seq<T>): (r: seq<T>)
    ensures r == [] <==> xs == []
  {
    if |xs| <= 1 then xs
    else Thinned(xs[..|xs| - 1]) + if xs[|xs| - 1] == xs[|xs| - 2] then [] else [xs[|xs| - 1]]
  }

  method UniqueAdjacent<T(==)>(lines: seq<T>) returns (out: seq<T>)
    ensures out == Thinned(lines)
  {
    out := [];
    for index := 0 to |lines|
      invariant out == Thinned(lines[..index])
    {
      assert lines[..index + 1][..index] == lines[..index];
      if index > 0 && lines[index] == lines[index - 1] {
        continue;
      }
      out := out + [lines[index]];
    }
    assert lines[..|lines|] == lines;
  }

  lemma {:induction false} ThinnedEnds<T>(xs: seq<T>)
    requires xs != []
    ensures var r := Thinned(xs); r != [] && r[|r| - 1] == xs[|xs| - 1] && r[0] == xs[0]
  {
    if |xs| > 1 {
      ThinnedEnds(xs[..|xs| - 1]);
    }
  }

  ghost predicate NoNeighboursEqual<T>(xs: seq<T>) {
    forall i :: 0 <= i < |xs| - 1 ==> xs[i] != xs[i + 1]
  }

  /** What is left has no equal neighbours and the same members. */
  lemma {:induction false} ThinnedIs<T>(xs: seq<T>)
    ensures NoNeighboursEqual(Thinned(xs)) && forall x :: x in Thinned(xs) <==> x in xs
  {
    if |xs| > 1 {
      var front, y := xs[..|xs| - 1], xs[|xs| - 1];
      ThinnedIs(front);
      ThinnedEnds(front);
      assert xs == front + [y];
    }
  }

  lemma {:induction false} ThinnedStillAscends<T(!new)>(less: Comparison<T>, xs: seq<T>)
    requires Ascending(less, xs)
    ensures Ascending(less, Thinned(xs))
  {
    if |xs| > 1 {
      var front, y := xs[..|xs| - 1], xs[|xs| - 1];
      ThinnedStillAscends(less, front);
      ThinnedIs(front);
      forall i | 0 <= i < |Thinned(front)|
        ensures !less(y, Thinned(front)[i])
      {
        var x := Thinned(front)[i];
        assert x in Thinned(front);
        assert x in front;
        var k :| 0 <= k < |front| && front[k] == x;
        assert xs[k] == front[k];
      }
    }
  }

  /** Without equal neighbours there is nothing to drop. */
  lemma {:induction false} NothingToThin<T>(xs: seq<T>)
    requires NoNeighboursEqual(xs)
    ensures Thinned(xs) == xs
  {
    if |xs| > 1 {
      NothingToThin(xs[..|xs| - 1]);
    }
  }

  /** Thinning piece by piece: a piece loses its head if that repeats what came before. */
  lemma {:induction false} ThinnedJoin<T>(xs: seq<T>, ys: seq<T>)
    requires xs != [] && ys != []
    ensures Thinned(xs + ys) == Thinned(xs) + if xs[|xs| - 1] == ys[0] then Thinned(ys)[1..] else Thinned(ys)
    decreases |ys|
  {
    ThinnedEnds(ys);
    assert (xs + ys)[..|xs + ys| - 1] == xs + ys[..|ys| - 1];
    if |ys| == 1 {
      assert xs + [] == xs;
    } else {
      ThinnedJoin(xs, ys[..|ys| - 1]);
      ThinnedEnds(ys[..|ys| - 1]);
    }
  }

  lemma ReversedOneMore<T>(xs: seq<T>, x: T)
    ensures Reversed(xs + [x]) == [x] + Reversed(xs)
  {
  }

  lemma ThinnedReversedStep<T>(front: seq<T>, y: T)
    requires front != [] && Thinned(Reversed(front)) == Reversed(Thinned(front))
    ensures Thinned(Reversed(front + [y])) == Reversed(Thinned(front + [y]))
  {
    var whole := Thinned(front);
    ThinnedEnds(front);
    ThinnedJoin([y], Reversed(front));
    ThinnedJoin(front, [y]);
    ReversedOneMore(front, y);
    ReversedOneMore(whole, y);
    assert whole + [] == whole;
    assert Reversed(whole)[0] == front[|front| - 1];
    assert y == front[|front| - 1] ==> [y] + Reversed(whole)[1..] == Reversed(whole);
  }

  /** Thinning and reversing commute. */
  lemma {:induction false} ThinnedReversed<T>(xs: seq<T>)
    ensures Thinned(Reversed(xs)) == Reversed(Thinned(xs))
  {
    if |xs| > 1 {
      ThinnedReversed(xs[..|xs| - 1]);
      ThinnedReversedStep(xs[..|xs| - 1], xs[|xs| - 1]);
      assert xs == xs[..|xs| - 1] + [xs[|xs| - 1]];
    } else {
      assert Reversed(xs) == xs;
    }
  }

  // ----- When thinning leaves no duplicates

  ghost predicate Distinct<T>(xs: seq<T>) {
    forall i, j :: 0 <= i < j < |xs| ==> xs[i] != xs[j]
  }

  /** Something else stands between two equal things. */
  ghost predicate Parted<T>(xs: seq<T>, i: int, j: int, k: int) {
    0 <= i < j < k < |xs| && xs[i] == xs[k] != xs[j]
  }

  ghost predicate Interrupted<T>(xs: seq<T>) {
    exists i, j, k :: Parted(xs, i, j, k)
  }

  lemma InterruptedOneMore<T>(front: seq<T>, y: T)
    requires front != []
    ensures Interrupted(front + [y]) <==> Interrupted(front) || (y != front[|front| - 1] && y in front)
  {
    var xs := front + [y];
    if i, j, k :| Parted(front, i, j, k) {
      assert Parted(xs, i, j, k);
    }
    if i :| 0 <= i < |front| && front[i] == y && y != front[|front| - 1] {
      assert Parted(xs, i, |front| - 1, |front|);
    }
    if i, j, k :| Parted(xs, i, j, k) {
      if k < |front| {
        assert Parted(front, i, j, k);
      } else if y == front[|front| - 1] {
        assert Parted(front, i, j, |front| - 1);
      } else {
        assert front[i] == y;
      }
    }
  }

  /** Thinning leaves no duplicates exactly when equal things stand together. */
  lemma {:induction false} DistinctIffTogether<T>(xs: seq<T>)
    ensures Distinct(Thinned(xs)) <==> !Interrupted(xs)
  {
    if |xs| > 1 {
      var front, y := xs[..|xs| - 1], xs[|xs| - 1];
      DistinctIffTogether(front);
      InterruptedOneMore(front, y);
      assert xs == front + [y];
      ThinnedIs(front);
      if y == front[|front| - 1] {
        assert Thinned(front) + [] == Thinned(front);
      } else {
        DistinctOneMore(Thinned(front), y);
      }
    }
  }

  lemma DistinctOneMore<T>(xs: seq<T>, y: T)
    ensures Distinct(xs + [y]) <==> Distinct(xs) && y !in xs
  {
    if Distinct(xs + [y]) {
      forall i, j | 0 <= i < j < |xs|
        ensures xs[i] != xs[j]
      {
        assert (xs + [y])[i] != (xs + [y])[j];
      }
      forall i | 0 <= i < |xs|
        ensures xs[i] != y
      {
        assert (xs + [y])[i] != (xs + [y])[|xs|];
      }
    }
  }

  /** Where the members of a class stand. */
  ghost predicate Places<T>(less: Comparison<T>, xs: seq<T>, v: T, pos: seq<nat>) {
    && |pos| == |Class(less, xs, v)|
    && (forall i :: 0 <= i < |pos| ==> pos[i] < |xs| && Class(less, xs, v)[i] == xs[pos[i]])
    && (forall i, j :: 0 <= i < j < |pos| ==> pos[i] < pos[j])
    && (forall p :: 0 <= p < |xs| && Same(less, xs[p], v) ==> p in pos)
  }

  lemma {:induction false} ClassPlaces<T>(less: Comparison<T>, xs: seq<T>, v: T) returns (pos: seq<nat>)
    ensures Places(less, xs, v, pos)
  {
    if xs == [] {
      pos := [];
    } else {
      var front := xs[..|xs| - 1];
      var before := ClassPlaces(less, front, v);
      if Same(less, xs[|xs| - 1], v) {
        pos := before + [|xs| - 1];
        forall p | 0 <= p < |xs| && Same(less, xs[p], v)
          ensures p in pos
        {
          assert p < |front| ==> front[p] == xs[p] && p in before;
          assert pos[|before|] == |xs| - 1;
        }
      } else {
        pos := before;
        forall p | 0 <= p < |xs| && Same(less, xs[p], v)
          ensures p in pos
        {
          assert front[p] == xs[p];
        }
      }
    }
  }

  lemma {:induction false} ClassAllSame<T>(less: Comparison<T>, xs: seq<T>, v: T, i: nat)
    requires i < |Class(less, xs, v)|
    ensures Same(less, Class(less, xs, v)[i], v)
  {
    if i < |Class(less, xs[..|xs| - 1], v)| {
      ClassAllSame(less, xs[..|xs| - 1], v, i);
    }
  }

  lemma ClassInterrupts<T>(less: Comparison<T>, xs: seq<T>, v: T) returns (i: int, j: int, k: int)
    requires Interrupted(Class(less, xs, v))
    ensures Parted(xs, i, j, k) && Same(less, xs[i], v) && Same(less, xs[j], v)
  {
    var pos := ClassPlaces(less, xs, v);
    var a, b, c :| Parted(Class(less, xs, v), a, b, c);
    ClassAllSame(less, xs, v, a);
    ClassAllSame(less, xs, v, b);
    i, j, k := pos[a], pos[b], pos[c];
  }

  lemma InterruptsClass<T>(less: Comparison<T>, xs: seq<T>, v: T, i: int, j: int, k: int)
    requires Parted(xs, i, j, k) && Same(less, xs[i], v) && Same(less, xs[j], v)
    ensures Interrupted(Class(less, xs, v))
  {
    var pos := ClassPlaces(less, xs, v);
    assert i in pos && j in pos && k in pos;
    var a :| 0 <= a < |pos| && pos[a] == i;
    var b :| 0 <= b < |pos| && pos[b] == j;
    var c :| 0 <= c < |pos| && pos[c] == k;
    assert a < b < c;
    assert Parted(Class(less, xs, v), a, b, c);
  }

  /** A class is interrupted where its members are in the whole. */
  lemma ClassInterruptedIff<T>(less: Comparison<T>, xs: seq<T>, v: T)
    ensures Interrupted(Class(less, xs, v)) <==>
            exists i, j, k :: Parted(xs, i, j, k) && Same(less, xs[i], v) && Same(less, xs[j], v)
  {
    if Interrupted(Class(less, xs, v)) {
      var i, j, k := ClassInterrupts(less, xs, v);
    }
    if i, j, k :| Parted(xs, i, j, k) && Same(less, xs[i], v) && Same(less, xs[j], v) {
      InterruptsClass(less, xs, v, i, j, k);
    }
  }

  /** Two equal things have between them something different that compares the same. */
  ghost predicate Mixed<T>(less: Comparison<T>, xs: seq<T>) {
    exists i, j, k :: Parted(xs, i, j, k) && Same(less, xs[i], xs[j])
  }

  lemma MixedIffSomeClass<T(!new)>(less: Comparison<T>, dom: T -> bool, xs: seq<T>)
    requires Orders(less, dom) && Within(dom, xs)
    ensures Mixed(less, xs) <==> exists v :: dom(v) && Interrupted(Class(less, xs, v))
  {
    if i, j, k :| Parted(xs, i, j, k) && Same(less, xs[i], xs[j]) {
      ClassInterruptedIff(less, xs, xs[i]);
      assert Same(less, xs[i], xs[i]) && Same(less, xs[j], xs[i]) && dom(xs[i]);
    }
    if v :| dom(v) && Interrupted(Class(less, xs, v)) {
      ClassInterruptedIff(less, xs, v);
      var i, j, k :| Parted(xs, i, j, k) && Same(less, xs[i], v) && Same(less, xs[j], v);
      assert dom(xs[i]) && dom(xs[j]);
      assert Parted(xs, i, j, k) && Same(less, xs[i], xs[j]);
    }
  }

  /** In ascending order whatever stands between equal things compares the same. */
  lemma MixedIffInterrupted<T(!new)>(less: Comparison<T>, xs: seq<T>)
    requires Ascending(less, xs)
    ensures Mixed(less, xs) <==> Interrupted(xs)
  {
    if i, j, k :| Parted(xs, i, j, k) {
      assert !less(xs[j], xs[i]) && !less(xs[k], xs[j]);
      assert Same(less, xs[i], xs[j]);
    }
  }

  lemma MixedTogether<T(!new)>(less: Comparison<T>, dom: T -> bool, xs: seq<T>, ys: seq<T>)
    requires Orders(less, dom) && Within(dom, xs) && Within(dom, ys) && SameClasses(less, dom, xs, ys)
    ensures Mixed(less, xs) <==> Mixed(less, ys)
  {
    MixedIffSomeClass(less, dom, xs);
    MixedIffSomeClass(less, dom, ys);
    if v :| dom(v) && Interrupted(Class(less, xs, v)) {
      assert Class(less, ys, v) == Class(less, xs, v);
    }
    if v :| dom(v) && Interrupted(Class(less, ys, v)) {
      assert Class(less, ys, v) == Class(less, xs, v);
    }
  }

  /** Sorted and thinned things are distinct exactly when the input was not mixed. */
  lemma SortedDistinctIff<T(!new)>(less: Comparison<T>, dom: T -> bool, xs: seq<T>)
    requires Orders(less, dom) && Within(dom, xs)
    ensures Distinct(Thinned(Sorted(less, xs, |xs|))) <==> !Mixed(less, xs)
  {
    var sorted := Sorted(less, xs, |xs|);
    SortedIsStable(less, dom, xs);
    DistinctIffTogether(sorted);
    MixedIffInterrupted(less, sorted);
    MixedTogether(less, dom, sorted, xs);
  }
}
