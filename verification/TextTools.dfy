/** The line tools beside sort: uniq, head and tail, cut and paste. */
module TextTools {
  import opened Options
  import opened GoStrings
  import opened Lines
  import opened StableSort

  // ----- Uniq

  datatype Run<T> = Run(line: T, count: nat)

  ghost function Expanded<T>(runs: seq<Run<T>>): seq<T> {
    if runs == [] then []
    else Expanded(runs[..|runs| - 1]) + Repeat(runs[|runs| - 1].line, runs[|runs| - 1].count)
  }

  /** The runs of equal neighbours in `xs`. */
  ghost predicate IsRunList<T>(runs: seq<Run<T>>, xs: seq<T>) {
    && Expanded(runs) == xs
    && (forall i :: 0 <= i < |runs| ==> runs[i].count > 0)
    && (forall i :: 0 <= i < |runs| - 1 ==> runs[i].line != runs[i + 1].line)
  }

  /** The runs, read off line by line. */
  function Runs<T(==)>(xs: seq<T>): seq<Run<T>> {
    if xs == [] then []
    else
      var before, x := Runs(xs[..|xs| - 1]), xs[|xs| - 1];
      if before != [] && before[|before| - 1].line == x
      then before[..|before| - 1] + [Run(x, before[|before| - 1].count + 1)]
      else before + [Run(x, 1)]
  }

  lemma {:induction false} RunsAreRunList<T>(xs: seq<T>)
    ensures IsRunList(Runs(xs), xs)
  {
    if xs != [] {
      var front, x := xs[..|xs| - 1], xs[|xs| - 1];
      var before := Runs(front);
      RunsAreRunList(front);
      assert xs == front + [x];
      if before != [] && before[|before| - 1].line == x {
        LongerRun(before, front);
      } else {
        NewRun(before, front, x);
      }
    }
  }

  lemma LongerRun<T>(runs: seq<Run<T>>, xs: seq<T>)
    requires IsRunList(runs, xs) && runs != []
    ensures var last := runs[|runs| - 1];
            IsRunList(runs[..|runs| - 1] + [Run(last.line, last.count + 1)], xs + [last.line])
  {
    var last := runs[|runs| - 1];
    var more := runs[..|runs| - 1] + [Run(last.line, last.count + 1)];
    assert more[..|more| - 1] == runs[..|runs| - 1];
    assert Repeat(last.line, last.count + 1) == Repeat(last.line, last.count) + [last.line];
  }

  lemma NewRun<T>(runs: seq<Run<T>>, xs: seq<T>, x: T)
    requires IsRunList(runs, xs) && (runs == [] || runs[|runs| - 1].line != x)
    ensures IsRunList(runs + [Run(x, 1)], xs + [x])
  {
    var more := runs + [Run(x, 1)];
    assert more[..|more| - 1] == runs;
    assert Repeat(x, 1) == [x];
  }

  function Total<T>(runs: seq<Run<T>>): nat {
    if runs == [] then 0 else Total(runs[..|runs| - 1]) + runs[|runs| - 1].count
  }

  function Heads<T>(runs: seq<Run<T>>): seq<T> {
    seq(|runs|, i requires 0 <= i < |runs| => runs[i].line)
  }

  lemma {:induction false} TotalIsLength<T>(runs: seq<Run<T>>)
    ensures Total(runs) == |Expanded(runs)|
  {
    if runs != [] {
      TotalIsLength(runs[..|runs| - 1]);
    }
  }

  lemma FrontRuns<T>(runs: seq<Run<T>>, xs: seq<T>)
    requires IsRunList(runs, xs) && runs != []
    ensures var last := runs[|runs| - 1];
            && last.count <= |xs| && IsRunList(runs[..|runs| - 1], xs[..|xs| - last.count])
            && xs == xs[..|xs| - last.count] + Repeat(last.line, last.count)
  {
  }

  lemma LastOfRuns<T>(runs: seq<Run<T>>, xs: seq<T>)
    requires IsRunList(runs, xs) && runs != []
    ensures xs != [] && xs[|xs| - 1] == runs[|runs| - 1].line
  {
    FrontRuns(runs, xs);
  }

  /** The last run is as long as it can be. */
  lemma LastRunIs<T>(runs: seq<Run<T>>, xs: seq<T>)
    requires IsRunList(runs, xs) && runs != []
    ensures var last := runs[|runs| - 1];
            && 0 < last.count <= |xs|
            && (forall i :: |xs| - last.count <= i < |xs| ==> xs[i] == last.line)
            && (last.count < |xs| ==> xs[|xs| - last.count - 1] != last.line)
  {
    var last := runs[|runs| - 1];
    var front, before := runs[..|runs| - 1], xs[..|xs| - last.count];
    FrontRuns(runs, xs);
    if last.count < |xs| {
      assert before != [] && front != [];
      LastOfRuns(front, before);
      assert runs[|runs| - 2].line != runs[|runs| - 1].line;
    }
  }

  /** Lines have one run list only. */
  lemma {:induction false} RunListIsUnique<T>(one: seq<Run<T>>, two: seq<Run<T>>, xs: seq<T>)
    requires IsRunList(one, xs) && IsRunList(two, xs)
    ensures one == two
    decreases |one|
  {
    if one == [] || two == [] {
      if one != [] {
        LastOfRuns(one, xs);
      }
      if two != [] {
        LastOfRuns(two, xs);
      }
    } else {
      LastRunIs(one, xs);
      LastRunIs(two, xs);
      assert xs[|xs| - 1] == one[|one| - 1].line == two[|two| - 1].line;
      FrontRuns(one, xs);
      FrontRuns(two, xs);
      RunListIsUnique(one[..|one| - 1], two[..|two| - 1], xs[..|xs| - one[|one| - 1].count]);
    }
  }

  lemma {:induction false} ThinnedRepeat<T>(x: T, n: nat)
    requires n > 0
    ensures Thinned(Repeat(x, n)) == [x]
  {
    assert Repeat(x, n)[..n - 1] == Repeat(x, n - 1);
    if n > 1 {
      ThinnedRepeat(x, n - 1);
    } else {
      assert Repeat(x, n) == [x];
    }
  }

  /** The heads of the runs are the lines without adjacent duplicates. */
  lemma {:induction false} HeadsAreThinned<T>(runs: seq<Run<T>>, xs: seq<T>)
    requires IsRunList(runs, xs)
    ensures Heads(runs) == Thinned(xs)
    decreases |runs|
  {
    if runs != [] {
      var front, last := runs[..|runs| - 1], runs[|runs| - 1];
      var before := xs[..|xs| - last.count];
      FrontRuns(runs, xs);
      HeadsAreThinned(front, before);
      ThinnedRepeat(last.line, last.count);
      assert Heads(runs) == Heads(front) + [last.line];
      if front != [] {
        LastOfRuns(front, before);
        ThinnedJoin(before, Repeat(last.line, last.count));
      } else {
        assert before == [] && xs == Repeat(last.line, last.count);
      }
    }
  }

  /** `%7d %s` */
  function Counted(run: Run<string>): string {
    Repeat(' ', if |Itoa(run.count)| < 7 then 7 - |Itoa(run.count)| else 0) + Itoa(run.count) + " " + run.line
  }

  lemma CountedPlaces(run: Run<string>)
    ensures var digits := Itoa(run.count);
            var pad := if |digits| < 7 then 7 - |digits| else 0;
            && |Counted(run)| == pad + |digits| + 1 + |run.line|
            && (forall i :: 0 <= i < pad ==> Counted(run)[i] == ' ')
            && (forall i :: pad <= i < pad + |digits| ==> IsDigit(Counted(run)[i]))
            && Counted(run)[pad..pad + |digits|] == digits
            && Counted(run)[pad + |digits|] == ' ' && Counted(run)[pad + |digits| + 1..] == run.line
  {
    var digits := Itoa(run.count);
    var pad := if |digits| < 7 then 7 - |digits| else 0;
    assert Counted(run) == Repeat(' ', pad) + digits + " " + run.line;
    forall i | pad <= i < pad + |digits|
      ensures IsDigit(Counted(run)[i])
    {
      assert Counted(run)[i] == digits[i - pad];
    }
  }

  /** A counted line tells the count and the line. */
  lemma CountedIsInjective(a: Run<string>, b: Run<string>)
    requires Counted(a) == Counted(b)
    ensures a == b
  {
    CountedPlaces(a);
    CountedPlaces(b);
    var m, n := |Itoa(a.count)|, |Itoa(b.count)|;
    var p, q := if m < 7 then 7 - m else 0, if n < 7 then 7 - n else 0;
    assert p == q by {
      assert IsDigit(Counted(a)[p]) && IsDigit(Counted(b)[q]);
    }
    assert m == n by {
      assert Counted(a)[p + m] == ' ' && Counted(b)[q + n] == ' ';
    }
    ItoaInjective(a.count, b.count);
  }

  /** The line behind its count, which ends in the seventh place or, if it needs more,
      starts the line. */
  ghost predicate ShowsCount(shown: string, line: string, count: nat, pad: string, digits: string) {
    && shown == pad + digits + " " + line
    && (forall i :: 0 <= i < |pad| ==> pad[i] == ' ')
    && digits != "" && (forall i :: 0 <= i < |digits| ==> '0' <= digits[i] <= '9')
    && Atoi(digits) == count && (|digits| > 1 ==> digits[0] != '0')
    && |pad| + |digits| >= 7 && (pad != "" ==> |pad| + |digits| == 7)
  }

  /** What uniq prints for one run. */
  ghost predicate Shows(shown: string, run: Run<string>, count: bool) {
    if count then exists pad, digits :: ShowsCount(shown, run.line, run.count, pad, digits) else shown == run.line
  }

  lemma CountedIs(run: Run<string>)
    ensures Shows(Counted(run), run, true)
  {
    var digits := Itoa(run.count);
    var pad := Repeat(' ', if |digits| < 7 then 7 - |digits| else 0);
    AtoiItoa(run.count);
    NoLeadingZero(run.count);
    assert ShowsCount(Counted(run), run.line, run.count, pad, digits);
  }

  /** The printed lines are one for each run of the input's lines. */
  ghost predicate ShowsRuns(lines: seq<string>, count: bool, out: seq<string>) {
    exists runs: seq<Run<string>> :: IsRunList(runs, lines) && |out| == |runs| && AllShown(runs, count, out)
  }

  ghost predicate AllShown(runs: seq<Run<string>>, count: bool, out: seq<string>) {
    forall i :: 0 <= i < |runs| && i < |out| ==> Shows(out[i], runs[i], count)
  }

  function CountedLines(runs: seq<Run<string>>): seq<string> {
    seq(|runs|, i requires 0 <= i < |runs| => Counted(runs[i]))
  }

  /** What stands after the runs up to `index`. */
  ghost predicate RunsUpTo(runs: seq<Run<string>>, lines: seq<string>, index: nat) {
    && index <= |lines| && IsRunList(runs, lines[..index])
    && (runs != [] && index < |lines| ==> runs[|runs| - 1].line != lines[index])
  }

  lemma RunAdded(runs: seq<Run<string>>, lines: seq<string>, index: nat, run: nat)
    requires RunsUpTo(runs, lines, index) && 0 < run && index + run <= |lines|
    requires forall k :: index <= k < index + run ==> lines[k] == lines[index]
    requires index + run < |lines| ==> lines[index + run] != lines[index]
    ensures RunsUpTo(runs + [Run(lines[index], run)], lines, index + run)
  {
    var all := runs + [Run(lines[index], run)];
    assert all[..|runs|] == runs;
    assert lines[..index + run] == lines[..index] + Repeat(lines[index], run);
  }

  function OneLine(run: Run<string>, count: bool): string {
    if count then Counted(run) else run.line
  }

  /** The lines uniq prints for these runs. */
  function Printed(runs: seq<Run<string>>, count: bool): seq<string> {
    if count then CountedLines(runs) else Heads(runs)
  }

  lemma PrintedIs(lines: seq<string>, count: bool)
    ensures ShowsRuns(lines, count, Printed(Runs(lines), count))
  {
    var runs := Runs(lines);
    RunsAreRunList(lines);
    forall i | 0 <= i < |runs|
      ensures Shows(Printed(runs, count)[i], runs[i], count)
    {
      CountedIs(runs[i]);
    }
  }

  lemma PrintedOneMore(runs: seq<Run<string>>, run: Run<string>, count: bool)
    ensures Printed(runs + [run], count) == Printed(runs, count) + [OneLine(run, count)]
  {
  }

  lemma RunsComplete(runs: seq<Run<string>>, lines: seq<string>)
    requires RunsUpTo(runs, lines, |lines|)
    ensures runs == Runs(lines)
  {
    assert lines[..|lines|] == lines;
    RunsAreRunList(lines);
    RunListIsUnique(runs, Runs(lines), lines);
  }

  /** How many lines from `index` on are the same. */
  method RunLength(lines: seq<string>, index: nat) returns (run: nat)
    requires index < |lines|
    ensures 0 < run && index + run <= |lines|
    ensures forall k :: index <= k < index + run ==> lines[k] == lines[index]
    ensures index + run < |lines| ==> lines[index + run] != lines[index]
  {
    run := 1;
    while index + run < |lines| && lines[index + run] == lines[index]
      invariant 0 < run && index + run <= |lines|
      invariant forall k :: index <= k < index + run ==> lines[k] == lines[index]
    {
      run := run + 1;
    }
  }

  /** One line for each run, with its count if asked. */
  method Uniq(text: string, count: bool) returns (r: string)
    ensures r == UniqText(text, count)
    ensures exists out :: r == JoinLines(out) && ShowsRuns(SplitLines(text), count, out)
  {
    var lines := SplitLines(text);
    var out: seq<string> := [];
    ghost var runs: seq<Run<string>> := [];
    var index := 0;
    while index < |lines|
      invariant RunsUpTo(runs, lines, index) && out == Printed(runs, count)
    {
      var run := RunLength(lines, index);
      out := out + [OneLine(Run(lines[index], run), count)];
      RunAdded(runs, lines, index, run);
      PrintedOneMore(runs, Run(lines[index], run), count);
      runs := runs + [Run(lines[index], run)];
      index := index + run;
    }
    RunsComplete(runs, lines);
    PrintedIs(lines, count);
    return JoinLines(out);
  }

  ghost function UniqText(text: string, count: bool): string {
    JoinLines(Printed(Runs(SplitLines(text)), count))
  }

  /** The counts sum to the number of lines, and the heads are what `UniqueAdjacent`
      keeps. */
  lemma UniqAgrees(text: string)
    ensures Total(Runs(SplitLines(text))) == LineCount(text)
    ensures UniqText(text, false) == JoinLines(Thinned(SplitLines(text)))
  {
    var lines := SplitLines(text);
    RunsAreRunList(lines);
    TotalIsLength(Runs(lines));
    LineCountIs(text);
    HeadsAreThinned(Runs(lines), lines);
  }

  /** Uniq twice is uniq once. */
  lemma UniqTwice(text: string)
    ensures UniqText(UniqText(text, false), false) == UniqText(text, false)
  {
    UniqAgrees(text);
    UniqAgrees(UniqText(text, false));
    var thin := Thinned(SplitLines(text));
    LinesAreFree(text);
    ThinnedIs(SplitLines(text));
    forall i | 0 <= i < |thin|
      ensures Newline !in thin[i]
    {
      assert thin[i] in SplitLines(text);
    }
    SplitOfJoinLines(thin);
    NothingToThin(thin);
  }

  lemma CountedIsFree(run: Run<string>)
    requires Newline !in run.line
    ensures Newline !in Counted(run)
  {
    CountedPlaces(run);
  }

  lemma {:induction false} HeadsAreFree(runs: seq<Run<string>>, xs: seq<string>)
    requires IsRunList(runs, xs) && FreeOf(xs, Newline)
    ensures FreeOf(Heads(runs), Newline)
  {
    HeadsAreThinned(runs, xs);
    ThinnedIs(xs);
    forall i | 0 <= i < |Heads(runs)|
      ensures Newline !in Heads(runs)[i]
    {
      assert Heads(runs)[i] in xs;
    }
  }

  /** The counted output loses nothing: texts with the same output have the same
      lines. */
  lemma CountedOutputDecodes(a: string, b: string)
    requires UniqText(a, true) == UniqText(b, true)
    ensures SplitLines(a) == SplitLines(b)
  {
    var runsA, runsB := Runs(SplitLines(a)), Runs(SplitLines(b));
    RunsAreRunList(SplitLines(a));
    RunsAreRunList(SplitLines(b));
    LinesAreFree(a);
    LinesAreFree(b);
    CountedSplit(runsA, SplitLines(a));
    CountedSplit(runsB, SplitLines(b));
    assert CountedLines(runsA) == CountedLines(runsB);
    forall i | 0 <= i < |runsA|
      ensures runsA[i] == runsB[i]
    {
      assert CountedLines(runsA)[i] == CountedLines(runsB)[i];
      CountedIsInjective(runsA[i], runsB[i]);
    }
    assert runsA == runsB;
  }

  lemma CountedSplit(runs: seq<Run<string>>, xs: seq<string>)
    requires IsRunList(runs, xs) && FreeOf(xs, Newline)
    ensures SplitLines(JoinLines(CountedLines(runs))) == CountedLines(runs)
  {
    HeadsAreFree(runs, xs);
    forall i | 0 <= i < |runs|
      ensures Newline !in CountedLines(runs)[i]
    {
      assert Heads(runs)[i] == runs[i].line;
      CountedIsFree(runs[i]);
    }
    SplitOfJoinLines(CountedLines(runs));
  }

  // ----- Head and tail

  const MaxLineLength := 2048

  function ClampLine(line: string): string {
    if |line| <= MaxLineLength then line else line[..MaxLineLength]
  }

  function Clamped(lines: seq<string>): (r: seq<string>)
    ensures |r| == |lines| && forall i :: 0 <= i < |lines| ==> r[i] == ClampLine(lines[i])
  {
    seq(|lines|, i requires 0 <= i < |lines| => ClampLine(lines[i]))
  }

  method ClampLines(lines: seq<string>) returns (out: seq<string>, truncated: bool)
    ensures out == Clamped(lines) && (truncated <==> out != lines)
  {
    out, truncated := [], false;
    for i := 0 to |lines|
      invariant out == Clamped(lines[..i])
      invariant truncated <==> exists j :: 0 <= j < i && ClampLine(lines[j]) != lines[j]
    {
      truncated := truncated || |lines[i]| > MaxLineLength;
      out := out + [ClampLine(lines[i])];
    }
    assert lines[..|lines|] == lines;
    if j :| 0 <= j < |lines| && ClampLine(lines[j]) != lines[j] {
      assert out[j] != lines[j];
    }
  }

  /** The line itself, or its first 2048 bytes. */
  ghost predicate Shortened(line: string, shown: string) {
    shown <= line && |shown| == if |line| <= 2048 then |line| else 2048
  }

  /** Line `i` of what is shown is line `from + i` of the input. */
  ghost predicate ShowsFrom(lines: seq<string>, from: nat, shown: seq<string>) {
    from + |shown| <= |lines| && forall i :: 0 <= i < |shown| ==> Shortened(lines[from + i], shown[i])
  }

  lemma ClampedShows(lines: seq<string>, from: nat, to: nat)
    requires from <= to <= |lines|
    ensures ShowsFrom(lines, from, Clamped(lines[from..to]))
  {
  }

  lemma ClampedIsFree(lines: seq<string>, from: nat, to: nat)
    requires from <= to <= |lines| && FreeOf(lines, Newline)
    ensures FreeOf(Clamped(lines[from..to]), Newline)
  {
  }

  /** Clamps and joins a stretch of the lines, and says whether that lost anything. */
  method Show(lines: seq<string>, from: nat, to: nat) returns (r: string, cut: bool)
    requires from <= to <= |lines| && FreeOf(lines, Newline)
    ensures r == JoinLines(Clamped(lines[from..to])) && (cut <==> SplitLines(r) != lines)
    ensures r == JoinLines(SplitLines(r)) && |SplitLines(r)| == to - from && ShowsFrom(lines, from, SplitLines(r))
  {
    var shown := lines[from..to];
    var clamped, shortened := ClampLines(shown);
    ClampedShows(lines, from, to);
    ClampedIsFree(lines, from, to);
    SplitOfJoinLines(clamped);
    assert to - from == |lines| ==> shown == lines;
    return JoinLines(clamped), shortened || to - from < |lines|;
  }

  function HeadOf(lines: seq<string>, n: int): seq<string> {
    if 0 <= n < |lines| then lines[..n] else lines
  }

  function TailOf(lines: seq<string>, n: int): seq<string> {
    if 0 <= n < |lines| then lines[|lines| - n..] else lines
  }

  /** The first `n` lines, all of them if `n` is negative. */
  method Head(text: string, n: int) returns (r: string, cut: bool)
    ensures r == JoinLines(Clamped(HeadOf(SplitLines(text), n))) && (cut <==> SplitLines(r) != SplitLines(text))
    ensures r == JoinLines(SplitLines(r))
    ensures |SplitLines(r)| == if 0 <= n < |SplitLines(text)| then n else |SplitLines(text)|
    ensures ShowsFrom(SplitLines(text), 0, SplitLines(r))
  {
    var lines := SplitLines(text);
    LinesAreFree(text);
    var to := if n >= 0 && |lines| > n then n else |lines|;
    assert lines[0..to] == HeadOf(lines, n);
    r, cut := Show(lines, 0, to);
  }

  /** The last `n` lines, all of them if `n` is negative. */
  method Tail(text: string, n: int) returns (r: string, cut: bool)
    ensures r == JoinLines(Clamped(TailOf(SplitLines(text), n))) && (cut <==> SplitLines(r) != SplitLines(text))
    ensures r == JoinLines(SplitLines(r))
    ensures |SplitLines(r)| == if 0 <= n < |SplitLines(text)| then n else |SplitLines(text)|
    ensures ShowsFrom(SplitLines(text), |SplitLines(text)| - |SplitLines(r)|, SplitLines(r))
  {
    var lines := SplitLines(text);
    LinesAreFree(text);
    var from := if n >= 0 && |lines| > n then |lines| - n else 0;
    assert lines[from..|lines|] == TailOf(lines, n);
    r, cut := Show(lines, from, |lines|);
  }

  // ----- Cut

  datatype CutError = NoDelimiter | NoFields | BadField

  /** The selected fields that a line has, in the order they are asked for. */
  function Pick(parts: seq<string>, fields: seq<int>, n: nat): seq<string>
    requires n <= |fields| && forall i :: 0 <= i < |fields| ==> fields[i] >= 1
  {
    if n == 0 then []
    else Pick(parts, fields, n - 1) + if fields[n - 1] <= |parts| then [parts[fields[n - 1] - 1]] else []
  }

  ghost function CutLine(line: string, delimiter: string, fields: seq<int>): string
    requires delimiter != "" && forall i :: 0 <= i < |fields| ==> fields[i] >= 1
  {
    Join(Pick(Split(line, delimiter), fields, |fields|), delimiter)
  }

  ghost function CutLines(lines: seq<string>, delimiter: string, fields: seq<int>, n: nat): seq<string>
    requires delimiter != "" && n <= |lines| && forall i :: 0 <= i < |fields| ==> fields[i] >= 1
  {
    seq(n, i requires 0 <= i < n => CutLine(lines[i], delimiter, fields))
  }

  /** How many of the first `n` fields asked for the line has. */
  ghost function Had(parts: seq<string>, fields: seq<int>, n: nat): nat
    requires n <= |fields|
  {
    var had := set j | 0 <= j < n && fields[j] <= |parts|;
    |had|
  }

  /** A field that the line has stands behind those asked for before it, every time it
      is asked for, and nothing else is there. */
  ghost predicate Picks(parts: seq<string>, fields: seq<int>, n: nat, selected: seq<string>)
    requires n <= |fields|
  {
    && |selected| == Had(parts, fields, n)
    && forall i :: 0 <= i < n && 1 <= fields[i] <= |parts| ==>
         Had(parts, fields, i) < |selected| && selected[Had(parts, fields, i)] == parts[fields[i] - 1]
  }

  lemma HadOneMore(parts: seq<string>, fields: seq<int>, n: nat)
    requires n < |fields|
    ensures Had(parts, fields, n + 1) == Had(parts, fields, n) + if fields[n] <= |parts| then 1 else 0
  {
    var before := set j | 0 <= j < n && fields[j] <= |parts|;
    var after := set j | 0 <= j < n + 1 && fields[j] <= |parts|;
    if fields[n] <= |parts| {
      assert after == before + {n};
    } else {
      assert after == before;
    }
  }

  lemma {:induction false} PickIs(parts: seq<string>, fields: seq<int>, n: nat)
    requires n <= |fields| && forall i :: 0 <= i < |fields| ==> fields[i] >= 1
    ensures Picks(parts, fields, n, Pick(parts, fields, n))
  {
    if n > 0 {
      PickIs(parts, fields, n - 1);
      HadOneMore(parts, fields, n - 1);
    }
  }

  /** The line made of its selected fields. */
  ghost predicate CutsTo(line: string, delimiter: string, fields: seq<int>, out: string)
    requires delimiter != ""
  {
    exists selected :: Picks(Split(line, delimiter), fields, |fields|, selected) && out == Join(selected, delimiter)
  }

  /** Every line is cut, and stays in its place. */
  ghost predicate AllCut(lines: seq<string>, delimiter: string, fields: seq<int>, out: seq<string>)
    requires delimiter != ""
  {
    |out| == |lines| && forall k :: 0 <= k < |lines| ==> CutsTo(lines[k], delimiter, fields, out[k])
  }

  lemma CutLinesAre(lines: seq<string>, delimiter: string, fields: seq<int>)
    requires delimiter != "" && forall i :: 0 <= i < |fields| ==> fields[i] >= 1
    ensures AllCut(lines, delimiter, fields, CutLines(lines, delimiter, fields, |lines|))
  {
    forall k | 0 <= k < |lines|
      ensures CutsTo(lines[k], delimiter, fields, CutLine(lines[k], delimiter, fields))
    {
      PickIs(Split(lines[k], delimiter), fields, |fields|);
    }
  }

  method PickFields(parts: seq<string>, fields: seq<int>) returns (selected: seq<string>)
    requires forall i :: 0 <= i < |fields| ==> fields[i] >= 1
    ensures selected == Pick(parts, fields, |fields|)
  {
    selected := [];
    for i := 0 to |fields|
      invariant selected == Pick(parts, fields, i)
    {
      if fields[i] <= |parts| {
        selected := selected + [parts[fields[i] - 1]];
      }
    }
  }

  method Cut(text: string, delimiter: string, fields: seq<int>) returns (r: Result<string, CutError>)
    ensures r == Err(NoDelimiter) <==> delimiter == ""
    ensures r == Err(NoFields) <==> delimiter != "" && fields == []
    ensures r == Err(BadField) <==> delimiter != "" && fields != [] && exists i :: 0 <= i < |fields| && fields[i] < 1
    ensures r.Ok? ==> r.value == JoinLines(CutLines(SplitLines(text), delimiter, fields, |SplitLines(text)|))
    ensures r.Ok? ==> exists out :: r.value == JoinLines(out) && AllCut(SplitLines(text), delimiter, fields, out)
  {
    if delimiter == "" {
      return Err(NoDelimiter);
    }
    if |fields| == 0 {
      return Err(NoFields);
    }
    for i := 0 to |fields|
      invariant forall j :: 0 <= j < i ==> fields[j] >= 1
    {
      if fields[i] < 1 {
        return Err(BadField);
      }
    }
    var out := CutEach(SplitLines(text), delimiter, fields);
    CutLinesAre(SplitLines(text), delimiter, fields);
    return Ok(JoinLines(out));
  }

  method CutEach(lines: seq<string>, delimiter: string, fields: seq<int>) returns (out: seq<string>)
    requires delimiter != "" && forall i :: 0 <= i < |fields| ==> fields[i] >= 1
    ensures out == CutLines(lines, delimiter, fields, |lines|)
  {
    out := [];
    for k := 0 to |lines|
      invariant out == CutLines(lines, delimiter, fields, k)
    {
      var selected := PickFields(Split(lines[k], delimiter), fields);
      CutOneMore(lines, delimiter, fields, k);
      out := out + [Join(selected, delimiter)];
    }
  }

  lemma CutOneMore(lines: seq<string>, delimiter: string, fields: seq<int>, k: nat)
    requires delimiter != "" && k < |lines| && forall i :: 0 <= i < |fields| ==> fields[i] >= 1
    ensures CutLines(lines, delimiter, fields, k + 1) ==
            CutLines(lines, delimiter, fields, k) + [CutLine(lines[k], delimiter, fields)]
  {
  }

  // ----- Paste

  /** The length of the longest of the first `n` columns. */
  function Longest(columns: seq<seq<string>>, n: nat): (r: nat)
    requires n <= |columns|
    ensures forall c :: 0 <= c < n ==> |columns[c]| <= r
    ensures n > 0 ==> exists c :: 0 <= c < n && |columns[c]| == r
  {
    if n == 0 then 0
    else
      var before := Longest(columns, n - 1);
      if |columns[n - 1]| > before || n == 1 then |columns[n - 1]| else before
  }

  /** A column's cell in a row, empty below its end. */
  function Cell(column: seq<string>, row: nat): string {
    if row < |column| then column[row] else ""
  }

  ghost function Row(columns: seq<seq<string>>, row: nat): seq<string> {
    seq(|columns|, c requires 0 <= c < |columns| => Cell(columns[c], row))
  }

  ghost function PastedLines(columns: seq<seq<string>>, delimiter: string, n: nat): seq<string> {
    seq(n, row requires row >= 0 => Join(Row(columns, row), delimiter))
  }

  ghost function Columns(inputs: seq<string>): seq<seq<string>> {
    seq(|inputs|, i requires 0 <= i < |inputs| => SplitLines(inputs[i]))
  }

  function EffectiveDelimiter(delimiter: string): string {
    if delimiter == "" then "\t" else delimiter
  }

  ghost function PastedText(inputs: seq<string>, delimiter: string): string {
    JoinLines(PastedLines(Columns(inputs), EffectiveDelimiter(delimiter), Longest(Columns(inputs), |inputs|)))
  }

  /** Row `row` has one cell for each input: its line there, empty below its end. */
  ghost predicate IsRow(inputs: seq<string>, row: nat, cells: seq<string>) {
    |cells| == |inputs| && forall c :: 0 <= c < |inputs| ==>
      var column := SplitLines(inputs[c]);
      (row < |column| ==> cells[c] == column[row]) && (row >= |column| ==> cells[c] == "")
  }

  /** The cells of a row, with the delimiter between them. */
  ghost predicate IsPastedRow(inputs: seq<string>, d: string, row: nat, line: string) {
    exists cells :: IsRow(inputs, row, cells) && line == Join(cells, d)
  }

  /** The longest input has `n` lines. */
  ghost predicate IsLongest(inputs: seq<string>, n: nat) {
    && (forall c :: 0 <= c < |inputs| ==> |SplitLines(inputs[c])| <= n)
    && (exists c :: 0 <= c < |inputs| && |SplitLines(inputs[c])| == n)
  }

  /** There are as many lines as the longest input has. */
  ghost predicate PastesTo(inputs: seq<string>, d: string, out: seq<string>) {
    IsLongest(inputs, |out|) && forall row :: 0 <= row < |out| ==> IsPastedRow(inputs, d, row, out[row])
  }

  lemma LongestIs(inputs: seq<string>)
    requires inputs != []
    ensures IsLongest(inputs, Longest(Columns(inputs), |inputs|))
  {
    var columns := Columns(inputs);
    forall c | 0 <= c < |inputs|
      ensures |SplitLines(inputs[c])| <= Longest(columns, |inputs|)
    {
      assert columns[c] == SplitLines(inputs[c]);
    }
    var c :| 0 <= c < |inputs| && |columns[c]| == Longest(columns, |inputs|);
    assert columns[c] == SplitLines(inputs[c]);
  }

  lemma RowIs(inputs: seq<string>, row: nat)
    ensures IsRow(inputs, row, Row(Columns(inputs), row))
  {
    forall c | 0 <= c < |inputs|
      ensures Row(Columns(inputs), row)[c] == Cell(SplitLines(inputs[c]), row)
    {
    }
  }

  lemma PastedRowIs(inputs: seq<string>, d: string, row: nat)
    ensures IsPastedRow(inputs, d, row, Join(Row(Columns(inputs), row), d))
  {
    RowIs(inputs, row);
  }

  lemma PastedLinesAre(inputs: seq<string>, d: string, n: nat)
    requires inputs != [] && n == Longest(Columns(inputs), |inputs|)
    ensures PastesTo(inputs, d, PastedLines(Columns(inputs), d, n))
  {
    LongestIs(inputs);
    forall row | 0 <= row < n
      ensures IsPastedRow(inputs, d, row, PastedLines(Columns(inputs), d, n)[row])
    {
      PastedRowIs(inputs, d, row);
    }
  }

  method CellsOfRow(columns: seq<seq<string>>, row: nat) returns (cells: seq<string>)
    ensures cells == Row(columns, row)
  {
    var made := new string[|columns|](_ => "");
    for column := 0 to |columns|
      invariant forall c :: 0 <= c < column ==> made[c] == Cell(columns[c], row)
      invariant forall c :: column <= c < |columns| ==> made[c] == ""
    {
      if row < |columns[column]| {
        made[column] := columns[column][row];
      }
    }
    return made[..];
  }

  /** The inputs side by side; `None` when there is no input. */
  method Paste(inputs: seq<string>, delimiter: string) returns (r: Option<string>)
    ensures r == if inputs == [] then None else Some(PastedText(inputs, delimiter))
    ensures r.Some? ==> exists out ::
              r.value == JoinLines(out) && PastesTo(inputs, if delimiter == "" then "\t" else delimiter, out)
  {
    if |inputs| < 1 {
      return None;
    }
    var between := if delimiter == "" then "\t" else delimiter;
    var columns, longest := ReadColumns(inputs);
    assert EffectiveDelimiter(delimiter) == between;
    var out: seq<string> := [];
    for row := 0 to longest
      invariant out == PastedLines(columns, between, row)
    {
      var cells := CellsOfRow(columns, row);
      PastedOneMore(columns, between, row);
      out := out + [Join(cells, between)];
    }
    PastedLinesAre(inputs, between, longest);
    return Some(JoinLines(out));
  }

  lemma PastedOneMore(columns: seq<seq<string>>, delimiter: string, n: nat)
    ensures PastedLines(columns, delimiter, n + 1) == PastedLines(columns, delimiter, n) + [Join(Row(columns, n), delimiter)]
  {
  }

  method ReadColumns(inputs: seq<string>) returns (columns: seq<seq<string>>, longest: nat)
    ensures columns == Columns(inputs) && longest == Longest(columns, |inputs|)
  {
    columns, longest := [], 0;
    for index := 0 to |inputs|
      invariant columns == Columns(inputs[..index]) && longest == Longest(columns, index)
    {
      ghost var before := columns;
      ColumnsOneMore(inputs, index);
      columns := columns + [SplitLines(inputs[index])];
      LongestOfMore(before, columns[index]);
      if |columns[index]| > longest {
        longest := |columns[index]|;
      }
    }
    assert inputs[..|inputs|] == inputs;
  }

  lemma ColumnsOneMore(inputs: seq<string>, index: nat)
    requires index < |inputs|
    ensures Columns(inputs[..index + 1]) == Columns(inputs[..index]) + [SplitLines(inputs[index])]
  {
  }

  lemma {:induction false} LongestOfPrefix(columns: seq<seq<string>>, column: seq<string>, n: nat)
    requires n <= |columns|
    ensures Longest(columns + [column], n) == Longest(columns, n)
  {
    if n > 0 {
      LongestOfPrefix(columns, column, n - 1);
    }
  }

  lemma LongestOfMore(columns: seq<seq<string>>, column: seq<string>)
    ensures var before := Longest(columns, |columns|);
            Longest(columns + [column], |columns| + 1) == if |column| > before then |column| else before
  {
    LongestOfPrefix(columns, column, |columns|);
  }

  // ----- Cut undoes paste

  /** A column with empty lines added up to the given length. */
  function Padded(column: seq<string>, n: nat): seq<string> {
    seq(n, row requires row >= 0 => Cell(column, row))
  }

  /** The inputs hold the delimiter nowhere; it neither holds a newline nor overlaps
      itself. */
  ghost predicate Clean(inputs: seq<string>, d: string) {
    inputs != [] && d != "" && Newline !in d && NoOverlap(d) && Without(inputs, d)
  }

  lemma SliceWithin(s: string, d: string, from: nat, to: nat)
    requires from <= to <= |s| && Occurs(d, s[from..to])
    ensures Occurs(d, s)
  {
    var slice := s[from..to];
    var j :| 0 <= j <= |slice| && d <= slice[j..];
    assert slice[j..] == s[from + j..][..to - from - j];
  }

  lemma SliceWithout(s: string, d: string, from: nat, to: nat)
    requires from <= to <= |s| && !Occurs(d, s)
    ensures !Occurs(d, s[from..to])
  {
    if Occurs(d, s[from..to]) {
      SliceWithin(s, d, from, to);
    }
  }

  lemma SplitKeepsOut(text: string, d: string)
    requires !Occurs(d, text)
    ensures Without(SplitLines(text), d)
  {
    if text != "" {
      SliceWithout(text, d, 0, |TrimNewline(text)|);
      assert TrimNewline(text) == text[0..|TrimNewline(text)|];
      PiecesWithout(TrimNewline(text), [Newline], d);
    }
  }

  lemma {:induction false} PiecesWithout(s: string, sep: string, d: string)
    requires sep != "" && !Occurs(d, s)
    ensures Without(Split(s, sep), d)
    decreases |s|
  {
    IndexOfIs(s, sep, 0);
    var k := IndexOf(s, sep, 0);
    if k >= 0 {
      SliceWithout(s, d, 0, k);
      SliceWithout(s, d, k + |sep|, |s|);
      assert s[0..k] == s[..k] && s[k + |sep|..|s|] == s[k + |sep|..];
      PiecesWithout(s[k + |sep|..], sep, d);
    }
  }

  lemma RowIsClean(inputs: seq<string>, d: string, row: nat)
    requires Clean(inputs, d)
    ensures Without(Row(Columns(inputs), row), d) && FreeOf(Row(Columns(inputs), row), Newline)
  {
    forall i | 0 <= i < |inputs|
      ensures !Occurs(d, Cell(Columns(inputs)[i], row)) && Newline !in Cell(Columns(inputs)[i], row)
    {
      LinesAreFree(inputs[i]);
      SplitKeepsOut(inputs[i], d);
    }
  }

  /** The pasted line of a row splits into the row and holds no newline. */
  lemma RowSplits(inputs: seq<string>, d: string, row: nat)
    requires Clean(inputs, d)
    ensures Split(Join(Row(Columns(inputs), row), d), d) == Row(Columns(inputs), row)
    ensures Newline !in Join(Row(Columns(inputs), row), d)
  {
    RowIsClean(inputs, d, row);
    SplitOfJoin(Row(Columns(inputs), row), d);
    JoinHolds(Row(Columns(inputs), row), d, Newline);
  }

  /** Splitting the pasted text gives the pasted lines, and splitting such a line
      gives the row. */
  lemma PastedSplits(inputs: seq<string>, d: string)
    requires Clean(inputs, d)
    ensures var columns := Columns(inputs);
            var n := Longest(columns, |inputs|);
            && SplitLines(PastedText(inputs, d)) == PastedLines(columns, d, n)
            && forall row :: 0 <= row < n ==> Split(PastedLines(columns, d, n)[row], d) == Row(columns, row)
  {
    var columns, n := Columns(inputs), Longest(Columns(inputs), |inputs|);
    forall row | 0 <= row < n
      ensures Split(PastedLines(columns, d, n)[row], d) == Row(columns, row)
      ensures Newline !in PastedLines(columns, d, n)[row]
    {
      RowSplits(inputs, d, row);
    }
    SplitOfJoinLines(PastedLines(columns, d, n));
  }

  ghost function CutText(text: string, delimiter: string, fields: seq<int>): string
    requires delimiter != "" && forall i :: 0 <= i < |fields| ==> fields[i] >= 1
  {
    JoinLines(CutLines(SplitLines(text), delimiter, fields, |SplitLines(text)|))
  }

  lemma CutTextIs(text: string, lines: seq<string>, d: string, fields: seq<int>, n: nat, out: seq<string>)
    requires d != "" && SplitLines(text) == lines && n == |lines| && forall i :: 0 <= i < |fields| ==> fields[i] >= 1
    requires CutLines(lines, d, fields, n) == out
    ensures CutText(text, d, fields) == JoinLines(out)
  {
  }

  lemma CutOneField(line: string, parts: seq<string>, d: string, k: nat)
    requires d != "" && Split(line, d) == parts && 1 <= k <= |parts|
    ensures CutLine(line, d, [k]) == parts[k - 1]
  {
    assert Pick(parts, [k], 1) == Pick(parts, [k], 0) + [parts[k - 1]];
  }

  lemma CutOfPasted(columns: seq<seq<string>>, d: string, n: nat, k: nat)
    requires d != "" && 1 <= k <= |columns|
    requires forall row :: 0 <= row < n ==> Split(PastedLines(columns, d, n)[row], d) == Row(columns, row)
    ensures CutLines(PastedLines(columns, d, n), d, [k], n) == Padded(columns[k - 1], n)
  {
    var pasted := PastedLines(columns, d, n);
    forall row | 0 <= row < n
      ensures CutLine(pasted[row], d, [k]) == Padded(columns[k - 1], n)[row]
    {
      CutOneField(pasted[row], Row(columns, row), d, k);
    }
  }

  lemma CutColumn(inputs: seq<string>, d: string, columns: seq<seq<string>>, n: nat, k: nat)
    requires Clean(inputs, d) && columns == Columns(inputs) && n == Longest(columns, |inputs|) && 1 <= k <= |columns|
    ensures CutText(PastedText(inputs, d), d, [k]) == JoinLines(Padded(columns[k - 1], n))
  {
    PastedSplits(inputs, d);
    CutOfPasted(columns, d, n, k);
    CutTextIs(PastedText(inputs, d), PastedLines(columns, d, n), d, [k], n, Padded(columns[k - 1], n));
  }

  /** Cutting field `k` of pasted text gives the lines of input `k`, padded with empty
      lines to the longest column. */
  lemma CutUndoesPaste(inputs: seq<string>, d: string, k: nat)
    requires Clean(inputs, d) && 1 <= k <= |inputs|
    ensures CutText(PastedText(inputs, d), d, [k]) ==
            JoinLines(Padded(Columns(inputs)[k - 1], Longest(Columns(inputs), |inputs|)))
  {
    CutColumn(inputs, d, Columns(inputs), Longest(Columns(inputs), |inputs|), k);
  }

  /** Where the column has a line, that line, and below its end nothing. */
  ghost predicate IsPadded(column: seq<string>, out: seq<string>) {
    forall row :: 0 <= row < |out| ==> out[row] == if row < |column| then column[row] else ""
  }

  /** `out` is column `i`, with empty lines up to the length of the longest. */
  ghost predicate IsColumn(columns: seq<seq<string>>, i: nat, out: seq<string>)
    requires i < |columns|
  {
    && (forall c :: 0 <= c < |columns| ==> |columns[c]| <= |out|)
    && (exists c :: 0 <= c < |columns| && |columns[c]| == |out|)
    && IsPadded(columns[i], out)
  }

  lemma PaddedIs(column: seq<string>, n: nat)
    ensures |Padded(column, n)| == n && IsPadded(column, Padded(column, n))
  {
  }

  lemma LongestIsOne(columns: seq<seq<string>>, n: nat)
    requires columns != [] && n == Longest(columns, |columns|)
    ensures (forall c :: 0 <= c < |columns| ==> |columns[c]| <= n) && exists c :: 0 <= c < |columns| && |columns[c]| == n
  {
  }

  lemma PaddedIsColumn(columns: seq<seq<string>>, i: nat)
    requires i < |columns|
    ensures IsColumn(columns, i, Padded(columns[i], Longest(columns, |columns|)))
  {
    var n := Longest(columns, |columns|);
    LongestIsOne(columns, n);
    PaddedIs(columns[i], n);
  }

  /** The columns are the lines of the inputs, one column for each. */
  lemma ColumnsAre(inputs: seq<string>)
    ensures |Columns(inputs)| == |inputs| && forall i :: 0 <= i < |inputs| ==> Columns(inputs)[i] == SplitLines(inputs[i])
  {
  }

  /** So the text that is cut out has the lines of input `k`. */
  lemma CutGivesColumn(inputs: seq<string>, d: string, k: nat) returns (out: seq<string>)
    requires Clean(inputs, d) && 1 <= k <= |inputs|
    ensures CutText(PastedText(inputs, d), d, [k]) == JoinLines(out) && IsColumn(Columns(inputs), k - 1, out)
  {
    out := Padded(Columns(inputs)[k - 1], Longest(Columns(inputs), |inputs|));
    CutUndoesPaste(inputs, d, k);
    PaddedIsColumn(Columns(inputs), k - 1);
  }

  lemma SingleLine(h: string)
    requires h != "" && Newline !in h
    ensures SplitLines(h) == [h]
  {
    NoOccurrence(h, Newline);
  }

  lemma PastedPair(h: string, d: string)
    requires h != "" && Newline !in h && d != "" && Newline !in d
    ensures Columns([h, ""]) == [[h], []] && Longest([[h], []], 2) == 1
    ensures SplitLines(PastedText([h, ""], d)) == [h + d]
  {
    var columns := [[h], []];
    SingleLine(h);
    assert Columns([h, ""]) == columns;
    assert Longest(columns, 1) == 1 && Longest(columns, 2) == 1;
    assert Row(columns, 0) == [h, ""] && [h, ""][1..] == [""];
    assert Join(Row(columns, 0), d) == h + d;
    assert PastedLines(columns, d, 1) == [h + d];
    SplitOfJoinLines([h + d]);
  }

  /** For every delimiter that overlaps itself, two inputs without it that cutting
      does not give back. */
  lemma OverlapBreaksCut(d: string, k: nat)
    requires 0 < k < |d| && d[k..] == d[..|d| - k] && Newline !in d
    ensures var inputs := [d[..k], ""];
            && Without(inputs, d)
            && CutText(PastedText(inputs, d), d, [1]) != JoinLines(Padded(Columns(inputs)[0], Longest(Columns(inputs), 2)))
  {
    var h := d[..k];
    OverlapSplitsTooEarly(d, k);
    PastedPair(h, d);
    assert [h, ""][1..] == [""] && Join([h, ""], d) == h + d;
    OverlapStarts(d, k);
    assert (h + d)[0..] == h + d && Split(h + d, d)[0] == "";
    CutOneField(h + d, Split(h + d, d), d, 1);
    assert CutLines([h + d], d, [1], 1) == [""];
    CutTextIs(PastedText([h, ""], d), [h + d], d, [1], 1, [""]);
    assert Padded([h], 1) == [h];
    assert |JoinLines([""])| == 1 && |JoinLines([h])| == k + 1;
  }

  /** The fields from the first to the `n`-th. */
  function UpTo(n: nat): (r: seq<int>)
    ensures |r| == n && forall i :: 0 <= i < n ==> r[i] == i + 1
  {
    seq(n, i => i + 1)
  }

  lemma {:induction false} PickAll(parts: seq<string>, n: nat, k: nat)
    requires k <= n <= |parts|
    ensures Pick(parts, UpTo(n), k) == parts[..k]
  {
    if k > 0 {
      PickAll(parts, n, k - 1);
    }
  }

  lemma CutAllOfPasted(columns: seq<seq<string>>, d: string, n: nat)
    requires d != "" && columns != []
    requires forall row :: 0 <= row < n ==> Split(PastedLines(columns, d, n)[row], d) == Row(columns, row)
    ensures CutLines(PastedLines(columns, d, n), d, UpTo(|columns|), n) == PastedLines(columns, d, n)
  {
    var pasted, m := PastedLines(columns, d, n), |columns|;
    forall row | 0 <= row < n
      ensures CutLine(pasted[row], d, UpTo(m)) == pasted[row]
    {
      PickAll(Row(columns, row), m, m);
      assert Row(columns, row)[..m] == Row(columns, row);
    }
  }

  /** Cutting all fields in order gives the pasted text back. */
  lemma CutAllOfPaste(inputs: seq<string>, d: string)
    requires Clean(inputs, d)
    ensures CutText(PastedText(inputs, d), d, UpTo(|inputs|)) == PastedText(inputs, d)
  {
    var columns, n := Columns(inputs), Longest(Columns(inputs), |inputs|);
    PastedSplits(inputs, d);
    CutAllOfPasted(columns, d, n);
    CutTextIs(PastedText(inputs, d), PastedLines(columns, d, n), d, UpTo(|inputs|), n, PastedLines(columns, d, n));
  }
}
