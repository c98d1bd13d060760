/** The sort tool, and what its orders are. */
module SortTool {
  import opened Options
  import opened GoStrings
  import opened Lines
  import opened StableSort

  // ----- Comparing lines

  /** Go's `<` on strings, byte by byte. */
  predicate BytesLess(s: string, t: string) {
    t != "" && (s == "" || s[0] < t[0] || (s[0] == t[0] && BytesLess(s[1..], t[1..])))
  }

  lemma {:induction false} OneOrTheOther(s: string, t: string)
    ensures !(BytesLess(s, t) && BytesLess(t, s))
    ensures BytesLess(s, t) || BytesLess(t, s) || s == t
    ensures !BytesLess(s, s)
    decreases |s|
  {
    if s != "" {
      OneOrTheOther(s[1..], s[1..]);
      if t != "" {
        OneOrTheOther(s[1..], t[1..]);
        assert s == [s[0]] + s[1..] && t == [t[0]] + t[1..];
      }
    }
  }

  lemma {:induction false} BytesBetween(s: string, t: string, u: string)
    requires BytesLess(s, u) && !BytesLess(s, t)
    ensures BytesLess(t, u)
    decreases |u|
  {
    if t != "" && s != "" && s[0] == u[0] && s[0] == t[0] {
      BytesBetween(s[1..], t[1..], u[1..]);
    }
  }

  /** Where they first differ `s` has the smaller byte, or `s` ends there. */
  ghost predicate BytesPart(s: string, t: string, k: int) {
    && 0 <= k <= |s| && k < |t| && (k == |s| || s[k] < t[k])
    && forall i :: 0 <= i < k ==> s[i] == t[i]
  }

  ghost predicate BytesBefore(s: string, t: string) {
    exists k :: BytesPart(s, t, k)
  }

  lemma {:induction false} BytesLessIff(s: string, t: string)
    ensures BytesLess(s, t) <==> BytesBefore(s, t)
  {
    if s == "" || t == "" || s[0] != t[0] {
      assert t != "" && (s == "" || s[0] < t[0]) ==> BytesPart(s, t, 0);
    } else {
      BytesLessIff(s[1..], t[1..]);
      if k :| BytesPart(s[1..], t[1..], k) {
        PartLater(s, t, k);
      }
      if k :| BytesPart(s, t, k) {
        PartEarlier(s, t, k);
      }
    }
  }

  lemma PartLater(s: string, t: string, k: int)
    requires s != "" && t != "" && s[0] == t[0] && BytesPart(s[1..], t[1..], k)
    ensures BytesPart(s, t, k + 1)
  {
    forall i | 0 <= i < k + 1
      ensures s[i] == t[i]
    {
      assert i > 0 ==> s[i] == s[1..][i - 1] && t[i] == t[1..][i - 1];
    }
  }

  lemma PartEarlier(s: string, t: string, k: int)
    requires s != "" && t != "" && s[0] == t[0] && BytesPart(s, t, k)
    ensures BytesPart(s[1..], t[1..], k - 1)
  {
    assert k > 0;
    forall i | 0 <= i < k - 1
      ensures s[1..][i] == t[1..][i]
    {
      assert s[i + 1] == t[i + 1];
    }
  }

  ghost function AnyLine(): string -> bool {
    s => true
  }

  lemma BytesOrder()
    ensures Orders(BytesLess, AnyLine())
  {
    forall a, b | BytesLess(a, b)
      ensures !BytesLess(b, a)
    {
      OneOrTheOther(a, b);
    }
    forall a, b, c | BytesLess(a, c) && !BytesLess(a, b)
      ensures BytesLess(b, c)
    {
      BytesBetween(a, b, c);
    }
  }

  /** What `strconv.ParseFloat` can yield. */
  datatype Num = Finite(x: real) | PosInf | NegInf | NaN

  predicate NumLess(a: Num, b: Num) {
    match (a, b)
    case (Finite(x), Finite(y)) => x < y
    case (NegInf, Finite(_)) => true
    case (NegInf, PosInf) => true
    case (Finite(_), PosInf) => true
    case _ => false
  }

  type Numbers = string -> Option<Num>

  /** Numbers compare as numbers; as soon as one side is no number, text compares. */
  predicate NumericLess(number: Numbers, a: string, b: string) {
    match (number(a), number(b))
    case (Some(x), Some(y)) => NumLess(x, y)
    case _ => BytesLess(a, b)
  }

  function ByNumber(number: Numbers): Comparison<string> {
    (a, b) => NumericLess(number, a, b)
  }

  /** Lines that are numbers other than NaN. */
  ghost function Numeric(number: Numbers): string -> bool {
    s => number(s).Some? && !number(s).value.NaN?
  }

  lemma NumericOrder(number: Numbers)
    ensures Orders(ByNumber(number), Numeric(number))
  {
  }

  /** With text between the numbers the comparison goes round in a circle. */
  lemma MixedLinesHaveNoOrder(number: Numbers, dom: string -> bool)
    requires number("2") == Some(Finite(2.0)) && number("10") == Some(Finite(10.0)) && number("1a") == None
    requires dom("2") && dom("10") && dom("1a")
    ensures !Orders(ByNumber(number), dom)
  {
    var less := ByNumber(number);
    assert less("2", "10") && less("10", "1a") && less("1a", "2");
  }

  // ----- Sort

  /** The lines in order, reversed if asked, without adjacent duplicates if asked. */
  ghost function SortedLines(less: Comparison<string>, reverse: bool, unique: bool, lines: seq<string>): seq<string> {
    var sorted := Sorted(less, lines, |lines|);
    var turned := if reverse then Reversed(sorted) else sorted;
    if unique then Thinned(turned) else turned
  }

  function NumbersOf(parseFloat: string -> Option<Num>): Numbers {
    s => parseFloat(TrimSpace(s))
  }

  function Order(numeric: bool, parseFloat: string -> Option<Num>): Comparison<string> {
    if numeric then ByNumber(NumbersOf(parseFloat)) else BytesLess
  }

  // ----- What sorting promises

  /** Of two numbers the first is smaller; the infinities lie at the ends, and NaN
      nowhere. */
  ghost predicate Smaller(a: Num, b: Num) {
    && !a.NaN? && !b.NaN? && a != b
    && (a.NegInf? || b.PosInf? || (a.Finite? && b.Finite? && a.x < b.x))
  }

  /** What the line reads as without the white space around it. */
  ghost predicate ReadsAs(parseFloat: string -> Option<Num>, line: string, n: Option<Num>) {
    exists t :: TrimmedOf(line, t) && parseFloat(t) == n
  }

  ghost predicate NumberBefore(parseFloat: string -> Option<Num>, a: string, b: string) {
    exists m, n :: ReadsAs(parseFloat, a, m) && ReadsAs(parseFloat, b, n) &&
      if m.Some? && n.Some? then Smaller(m.value, n.value) else BytesBefore(a, b)
  }

  /** Line `a` comes before line `b`: by its bytes, or by the numbers they read as. */
  ghost predicate Before(numeric: bool, parseFloat: string -> Option<Num>, a: string, b: string) {
    if numeric then NumberBefore(parseFloat, a, b) else BytesBefore(a, b)
  }

  ghost predicate AllNumbers(parseFloat: string -> Option<Num>, lines: seq<string>) {
    forall i, n :: 0 <= i < |lines| && ReadsAs(parseFloat, lines[i], n) ==> n.Some? && !n.value.NaN?
  }

  lemma SmallerIff(a: Num, b: Num)
    ensures NumLess(a, b) <==> Smaller(a, b)
  {
  }

  lemma NumberOfIs(parseFloat: string -> Option<Num>, line: string, n: Option<Num>)
    ensures ReadsAs(parseFloat, line, n) <==> NumbersOf(parseFloat)(line) == n
  {
    TrimSpaceIff(line, TrimSpace(line));
    if t :| TrimmedOf(line, t) && parseFloat(t) == n {
      TrimSpaceIff(line, t);
    }
  }

  /** Each mode compares the way it should. */
  lemma OrderIs(numeric: bool, parseFloat: string -> Option<Num>, a: string, b: string)
    ensures Order(numeric, parseFloat)(a, b) <==> Before(numeric, parseFloat, a, b)
  {
    BytesLessIff(a, b);
    if numeric {
      var m, n := NumbersOf(parseFloat)(a), NumbersOf(parseFloat)(b);
      forall k
        ensures ReadsAs(parseFloat, a, k) <==> k == m
        ensures ReadsAs(parseFloat, b, k) <==> k == n
      {
        NumberOfIs(parseFloat, a, k);
        NumberOfIs(parseFloat, b, k);
      }
      if m.Some? && n.Some? {
        SmallerIff(m.value, n.value);
      }
    }
  }

  /** Line `i` of `up` is line `pos[i]` of the input, each one once; a line overtakes only
      lines that it comes before. */
  ghost predicate StableFrom(numeric: bool, parseFloat: string -> Option<Num>, lines: seq<string>, up: seq<string>, pos: seq<nat>) {
    && |pos| == |up| == |lines|
    && (forall i :: 0 <= i < |pos| ==> pos[i] < |lines| && up[i] == lines[pos[i]])
    && (forall i, j :: 0 <= i < j < |pos| ==> pos[i] != pos[j] && (pos[i] > pos[j] ==> Before(numeric, parseFloat, up[i], up[j])))
  }

  /** Read upwards, no line comes before one that is above it. */
  ghost predicate InOrder(numeric: bool, parseFloat: string -> Option<Num>, up: seq<string>) {
    forall i, j :: 0 <= i < j < |up| ==> !Before(numeric, parseFloat, up[j], up[i])
  }

  /** What the lines `out` are for the input `lines`: the same lines, each as often and
      equal ones in the input's order, or with `unique` none twice in a row; in order, if
      they have one; and all turned round with `reverse`. */
  ghost predicate SortsTo(reverse: bool, numeric: bool, unique: bool, parseFloat: string -> Option<Num>,
                          lines: seq<string>, out: seq<string>) {
    var up := if reverse then Reversed(out) else out;
    && (forall x :: x in out <==> x in lines)
    && (if unique then NoNeighboursEqual(out) else exists pos :: StableFrom(numeric, parseFloat, lines, up, pos))
    && ((numeric ==> AllNumbers(parseFloat, lines)) ==> InOrder(numeric, parseFloat, up))
  }

  lemma NumbersAreNumeric(parseFloat: string -> Option<Num>, lines: seq<string>)
    requires AllNumbers(parseFloat, lines)
    ensures Within(Numeric(NumbersOf(parseFloat)), lines)
  {
    forall i | 0 <= i < |lines|
      ensures Numeric(NumbersOf(parseFloat))(lines[i])
    {
      NumberOfIs(parseFloat, lines[i], NumbersOf(parseFloat)(lines[i]));
    }
  }

  lemma SortedIsInOrder(numeric: bool, unique: bool, parseFloat: string -> Option<Num>, lines: seq<string>)
    requires numeric ==> AllNumbers(parseFloat, lines)
    ensures InOrder(numeric, parseFloat, SortedLines(Order(numeric, parseFloat), false, unique, lines))
  {
    var less := Order(numeric, parseFloat);
    if numeric {
      NumbersAreNumeric(parseFloat, lines);
      NumericOrder(NumbersOf(parseFloat));
      SortedAscends(less, Numeric(NumbersOf(parseFloat)), lines, |lines|);
    } else {
      BytesOrder();
      SortedAscends(less, AnyLine(), lines, |lines|);
    }
    ThinnedStillAscends(less, Sorted(less, lines, |lines|));
    var up := SortedLines(less, false, unique, lines);
    forall i, j | 0 <= i < j < |up|
      ensures !Before(numeric, parseFloat, up[j], up[i])
    {
      OrderIs(numeric, parseFloat, up[j], up[i]);
    }
  }

  lemma SortedIsStableFrom(numeric: bool, parseFloat: string -> Option<Num>, lines: seq<string>) returns (pos: seq<nat>)
    ensures StableFrom(numeric, parseFloat, lines, SortedLines(Order(numeric, parseFloat), false, false, lines), pos)
  {
    var less := Order(numeric, parseFloat);
    var up := SortedLines(less, false, false, lines);
    pos := SortedArranged(less, lines, |lines|);
    forall i, j | 0 <= i < j < |pos| && pos[i] > pos[j]
      ensures Before(numeric, parseFloat, up[i], up[j])
    {
      OrderIs(numeric, parseFloat, up[i], up[j]);
    }
  }

  lemma SameMembers(less: Comparison<string>, reverse: bool, unique: bool, lines: seq<string>)
    ensures forall x :: x in SortedLines(less, reverse, unique, lines) <==> x in lines
  {
    var turned := SortedLines(less, reverse, false, lines);
    SortRearranges(less, reverse, lines);
    ThinnedIs(turned);
    forall x
      ensures x in turned <==> x in lines
    {
      assert x in turned <==> x in multiset(turned);
      assert x in lines <==> x in multiset(lines);
    }
  }

  lemma SortedLinesAre(reverse: bool, numeric: bool, unique: bool, parseFloat: string -> Option<Num>, lines: seq<string>)
    ensures SortsTo(reverse, numeric, unique, parseFloat, lines,
                    SortedLines(Order(numeric, parseFloat), reverse, unique, lines))
  {
    var less := Order(numeric, parseFloat);
    var out, up := SortedLines(less, reverse, unique, lines), SortedLines(less, false, unique, lines);
    SameMembers(less, reverse, unique, lines);
    ReverseIsExact(less, unique, lines);
    assert Reversed(Reversed(up)) == up;
    ThinnedIs(SortedLines(less, reverse, false, lines));
    if !unique {
      var pos := SortedIsStableFrom(numeric, parseFloat, lines);
    }
    if numeric ==> AllNumbers(parseFloat, lines) {
      SortedIsInOrder(numeric, unique, parseFloat, lines);
    }
  }

  method Sort(text: string, reverse: bool, numeric: bool, unique: bool, parseFloat: string -> Option<Num>) returns (r: string)
    ensures r == JoinLines(SortedLines(Order(numeric, parseFloat), reverse, unique, SplitLines(text)))
    ensures r == JoinLines(SplitLines(r)) && SortsTo(reverse, numeric, unique, parseFloat, SplitLines(text), SplitLines(r))
  {
    var lines := SplitLines(text);
    var sorted := new string[|lines|](i requires 0 <= i < |lines| => lines[i]);
    assert sorted[..] == lines;
    SortStable(sorted, Order(numeric, parseFloat));
    if reverse {
      ReverseInPlace(sorted);
    }
    var out := sorted[..];
    if unique {
      out := UniqueAdjacent(out);
    }
    SortedTextHasTheLines(Order(numeric, parseFloat), reverse, unique, text);
    SortedLinesAre(reverse, numeric, unique, parseFloat, lines);
    return JoinLines(out);
  }

  /** Without `unique` every mode only rearranges the lines. */
  lemma SortRearranges(less: Comparison<string>, reverse: bool, lines: seq<string>)
    ensures multiset(SortedLines(less, reverse, false, lines)) == multiset(lines)
  {
    SortedIsPermutation(less, lines, |lines|);
    assert lines[..|lines|] == lines;
    ReversedMembers(Sorted(less, lines, |lines|));
  }

  lemma {:induction false} ReversedMembers<T>(xs: seq<T>)
    ensures multiset(Reversed(xs)) == multiset(xs)
  {
    if xs == [] {
      assert Reversed(xs) == [];
    } else {
      var front, x := xs[..|xs| - 1], xs[|xs| - 1];
      ReversedMembers(front);
      assert xs == front + [x];
      ReversedOneMore(front, x);
    }
  }

  /** `reverse` gives the exact reversal, with and without `unique`. */
  lemma ReverseIsExact(less: Comparison<string>, unique: bool, lines: seq<string>)
    ensures SortedLines(less, true, unique, lines) == Reversed(SortedLines(less, false, unique, lines))
  {
    ThinnedReversed(Sorted(less, lines, |lines|));
  }

  ghost predicate StrictlyAscending(less: Comparison<string>, xs: seq<string>) {
    forall i, j :: 0 <= i < j < |xs| ==> less(xs[i], xs[j])
  }

  /** Plain sorting puts the lines in byte order; with `unique` each line is there
      once. */
  lemma PlainSortOrders(lines: seq<string>)
    ensures Ascending(BytesLess, SortedLines(BytesLess, false, false, lines))
    ensures StrictlyAscending(BytesLess, SortedLines(BytesLess, false, true, lines))
    ensures forall x :: x in SortedLines(BytesLess, false, true, lines) <==> x in lines
  {
    var sorted := Sorted(BytesLess, lines, |lines|);
    BytesOrder();
    SortedAscends(BytesLess, AnyLine(), lines, |lines|);
    SortRearranges(BytesLess, false, lines);
    ThinnedIs(sorted);
    ThinnedAscends(sorted);
    forall x
      ensures x in Thinned(sorted) <==> x in lines
    {
      assert x in sorted <==> x in multiset(sorted);
      assert x in lines <==> x in multiset(lines);
    }
  }

  lemma LastIsGreatest(xs: seq<string>, x: string)
    requires Ascending(BytesLess, xs) && x in xs
    ensures !BytesLess(xs[|xs| - 1], x)
  {
    var k :| 0 <= k < |xs| && xs[k] == x;
    if k == |xs| - 1 {
      OneOrTheOther(x, x);
    }
  }

  lemma AscendsFurther(thin: seq<string>, front: seq<string>, y: string)
    requires StrictlyAscending(BytesLess, thin) && (forall i :: 0 <= i < |thin| ==> thin[i] in front)
    requires front != [] && Ascending(BytesLess, front) && BytesLess(front[|front| - 1], y)
    ensures StrictlyAscending(BytesLess, thin + [y])
  {
    forall i | 0 <= i < |thin|
      ensures BytesLess(thin[i], y)
    {
      LastIsGreatest(front, thin[i]);
      BytesBetween(front[|front| - 1], thin[i], y);
    }
  }

  lemma {:induction false} ThinnedAscends(xs: seq<string>)
    requires Ascending(BytesLess, xs)
    ensures StrictlyAscending(BytesLess, Thinned(xs))
  {
    if |xs| > 1 {
      var front, y := xs[..|xs| - 1], xs[|xs| - 1];
      ThinnedAscends(front);
      ThinnedIs(front);
      if y != front[|front| - 1] {
        OneOrTheOther(front[|front| - 1], y);
        AscendsFurther(Thinned(front), front, y);
      }
    }
  }

  lemma {:induction false} PlainClass(xs: seq<string>, v: string)
    ensures Class(BytesLess, xs, v) == Repeat(v, multiset(xs)[v])
  {
    if xs != [] {
      var front, x := xs[..|xs| - 1], xs[|xs| - 1];
      PlainClass(front, v);
      OneOrTheOther(x, v);
      assert xs == front + [x];
      assert multiset(xs)[v] == multiset(front)[v] + if x == v then 1 else 0;
    }
  }

  /** The plainly sorted lines are the only arrangement of the lines in byte order. */
  lemma PlainSortIsTheOnlyOne(lines: seq<string>, ys: seq<string>)
    requires Ascending(BytesLess, ys) && multiset(ys) == multiset(lines)
    ensures ys == SortedLines(BytesLess, false, false, lines)
  {
    var sorted := Sorted(BytesLess, lines, |lines|);
    BytesOrder();
    PlainSortOrders(lines);
    SortRearranges(BytesLess, false, lines);
    forall v
      ensures Class(BytesLess, ys, v) == Class(BytesLess, sorted, v)
    {
      PlainClass(ys, v);
      PlainClass(sorted, v);
    }
    StableSortIsUnique(BytesLess, AnyLine(), ys, sorted);
  }

  /** Numeric sorting puts numbers in ascending order, keeps equal ones in the order
      of the input, and changes nothing the second time. */
  lemma NumericSortIsStable(parseFloat: string -> Option<Num>, lines: seq<string>)
    requires Within(Numeric(NumbersOf(parseFloat)), lines)
    ensures var less := Order(true, parseFloat);
            var sorted := SortedLines(less, false, false, lines);
            && Ascending(less, sorted)
            && SameClasses(less, Numeric(NumbersOf(parseFloat)), sorted, lines)
            && SortedLines(less, false, false, sorted) == sorted
  {
    NumericOrder(NumbersOf(parseFloat));
    SortedIsStable(Order(true, parseFloat), Numeric(NumbersOf(parseFloat)), lines);
    SortedTwice(Order(true, parseFloat), Numeric(NumbersOf(parseFloat)), lines);
  }

  /** With `unique` numeric sorting still repeats a line exactly when, in the input,
      a differently written equal number stands between two copies of it. */
  lemma NumericUniqueIff(parseFloat: string -> Option<Num>, lines: seq<string>)
    requires Within(Numeric(NumbersOf(parseFloat)), lines)
    ensures Distinct(SortedLines(Order(true, parseFloat), false, true, lines)) <==> !Mixed(Order(true, parseFloat), lines)
  {
    NumericOrder(NumbersOf(parseFloat));
    SortedDistinctIff(Order(true, parseFloat), Numeric(NumbersOf(parseFloat)), lines);
  }

  /** So it is for "1", "1.0", "1". */
  lemma NumericUniqueRepeats(parseFloat: string -> Option<Num>)
    requires NumbersOf(parseFloat)("1") == Some(Finite(1.0)) && NumbersOf(parseFloat)("1.0") == Some(Finite(1.0))
    ensures var lines := ["1", "1.0", "1"];
            Within(Numeric(NumbersOf(parseFloat)), lines) &&
            !Distinct(SortedLines(Order(true, parseFloat), false, true, lines))
  {
    var lines := ["1", "1.0", "1"];
    assert "1" != "1.0" by {
      assert |"1"| != |"1.0"|;
    }
    assert Parted(lines, 0, 1, 2) && Same(Order(true, parseFloat), lines[0], lines[1]);
    NumericUniqueIff(parseFloat, lines);
  }

  /** The text that is returned has exactly the sorted lines. */
  lemma SortedTextHasTheLines(less: Comparison<string>, reverse: bool, unique: bool, text: string)
    ensures var sorted := SortedLines(less, reverse, unique, SplitLines(text));
            SplitLines(JoinLines(sorted)) == sorted
  {
    var lines := SplitLines(text);
    var turned, sorted := SortedLines(less, reverse, false, lines), SortedLines(less, reverse, unique, lines);
    LinesAreFree(text);
    SortRearranges(less, reverse, lines);
    ThinnedIs(turned);
    forall i | 0 <= i < |sorted|
      ensures Newline !in sorted[i]
    {
      assert sorted[i] in turned;
      assert sorted[i] in multiset(turned);
      assert sorted[i] in lines;
    }
    SplitOfJoinLines(sorted);
  }
}
