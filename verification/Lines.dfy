/** Splitting text and joining it again. */
module Lines {
  // ----- strings.Split and strings.Join

  /** The first place at or after `i` where `sep` occurs in `s`; -1 if there is none. */
  function IndexOf(s: string, sep: string, i: nat): int
    requires i <= |s|
    decreases |s| - i
  {
    if sep <= s[i..] then i else if i == |s| then -1 else IndexOf(s, sep, i + 1)
  }

  lemma {:induction false} IndexOfIs(s: string, sep: string, i: nat)
    requires i <= |s|
    ensures var k := IndexOf(s, sep, i);
            if k < 0 then forall j :: i <= j <= |s| ==> !(sep <= s[j..])
            else i <= k <= |s| && sep <= s[k..] && forall j :: i <= j < k ==> !(sep <= s[j..])
    decreases |s| - i
  {
    if !(sep <= s[i..]) && i < |s| {
      IndexOfIs(s, sep, i + 1);
    }
  }

  function Split(s: string, sep: string): (parts: seq<string>)
    requires sep != ""
    ensures parts != []
    decreases |s|
  {
    IndexOfIs(s, sep, 0);
    var k := IndexOf(s, sep, 0);
    if k < 0 then [s] else [s[..k]] + Split(s[k + |sep|..], sep)
  }

  function Join(parts: seq<string>, sep: string): string {
    if |parts| == 0 then "" else if |parts| == 1 then parts[0] else parts[0] + sep + Join(parts[1..], sep)
  }

  /** Joining undoes splitting, for every separator. */
  lemma {:induction false} JoinOfSplit(s: string, sep: string)
    requires sep != ""
    ensures Join(Split(s, sep), sep) == s
    decreases |s|
  {
    IndexOfIs(s, sep, 0);
    var k := IndexOf(s, sep, 0);
    if k >= 0 {
      var rest := s[k + |sep|..];
      JoinOfSplit(rest, sep);
      assert Split(s, sep)[1..] == Split(rest, sep);
      assert s == s[..k] + sep + rest;
    }
  }

  ghost predicate FreeOf(parts: seq<string>, c: char) {
    forall i :: 0 <= i < |parts| ==> c !in parts[i]
  }

  ghost predicate Occurs(sep: string, s: string) {
    exists j :: 0 <= j <= |s| && sep <= s[j..]
  }

  ghost predicate Without(parts: seq<string>, sep: string) {
    forall i :: 0 <= i < |parts| ==> !Occurs(sep, parts[i])
  }

  /** No end of the separator is also a beginning of it. */
  ghost predicate NoOverlap(sep: string) {
    forall k :: 0 < k < |sep| ==> sep[k..] != sep[..|sep| - k]
  }

  /** A separator whose first byte does not come again, such as any UTF-8 character,
      does not overlap itself. */
  lemma CharacterDoesNotOverlap(sep: string)
    requires forall k :: 0 < k < |sep| ==> sep[k] != sep[0]
    ensures NoOverlap(sep)
  {
    forall k | 0 < k < |sep|
      ensures sep[k..] != sep[..|sep| - k]
    {
      assert sep[k..][0] == sep[k] && sep[..|sep| - k][0] == sep[0];
    }
  }

  lemma NoOccurrence(s: string, c: char)
    ensures IndexOf(s, [c], 0) < 0 <==> c !in s
    ensures Occurs([c], s) <==> c in s
  {
    IndexOfIs(s, [c], 0);
    forall j | 0 <= j < |s|
      ensures s[j..][0] == s[j] && ([c] <= s[j..] <==> s[j] == c)
    {
    }
  }

  /** If the separator starts earlier than where it was put, the head holds it or it
      overlaps itself. */
  lemma EarlyOccurrence(head: string, sep: string, rest: string, j: nat)
    requires sep != "" && j < |head| && sep <= (head + sep + rest)[j..]
    ensures Occurs(sep, head) || (|head| - j < |sep| && sep[|head| - j..] == sep[..|sep| - (|head| - j)])
  {
    var s := head + sep + rest;
    var k := |head| - j;
    assert s[j..j + |sep|] == sep;
    if |sep| <= k {
      assert head[j..] == s[j..][..k];
      assert sep <= head[j..];
    } else {
      assert sep[k..] == s[j..j + |sep|][k..] == s[|head|..j + |sep|] == sep[..|sep| - k];
    }
  }

  lemma FirstOccurrence(head: string, sep: string, rest: string)
    requires sep != "" && NoOverlap(sep) && !Occurs(sep, head)
    ensures IndexOf(head + sep + rest, sep, 0) == |head|
  {
    var s := head + sep + rest;
    IndexOfIs(s, sep, 0);
    assert s[|head|..] == sep + rest;
    forall j | 0 <= j < |head|
      ensures !(sep <= s[j..])
    {
      if sep <= s[j..] {
        EarlyOccurrence(head, sep, rest, j);
      }
    }
  }

  /** Splitting undoes joining when no part holds the separator. */
  lemma {:induction false} SplitOfJoin(parts: seq<string>, sep: string)
    requires sep != "" && NoOverlap(sep) && parts != [] && Without(parts, sep)
    ensures Split(Join(parts, sep), sep) == parts
    decreases |parts|
  {
    var s := Join(parts, sep);
    if |parts| == 1 {
      IndexOfIs(s, sep, 0);
    } else {
      var rest := Join(parts[1..], sep);
      FirstOccurrence(parts[0], sep, rest);
      SplitOfJoin(parts[1..], sep);
      assert s[..|parts[0]|] == parts[0] && s[|parts[0]| + |sep|..] == rest;
    }
  }

  lemma OverlapStarts(sep: string, k: nat)
    requires 0 < k < |sep| && sep[k..] == sep[..|sep| - k]
    ensures sep <= sep[..k] + sep && !Occurs(sep, sep[..k]) && !Occurs(sep, "")
  {
    var s := sep[..k] + sep;
    assert s[..|sep|] == sep[..k] + sep[..|sep| - k];
    assert sep[..k] + sep[k..] == sep;
  }

  /** A separator that overlaps itself is found too early. */
  lemma OverlapSplitsTooEarly(sep: string, k: nat)
    requires 0 < k < |sep| && sep[k..] == sep[..|sep| - k]
    ensures Without([sep[..k], ""], sep) && Split(Join([sep[..k], ""], sep), sep) != [sep[..k], ""]
  {
    var parts := [sep[..k], ""];
    var s := Join(parts, sep);
    OverlapStarts(sep, k);
    assert parts[1..] == [""] && Join([""], sep) == "";
    assert s == sep[..k] + sep;
    assert s[0..] == s && IndexOf(s, sep, 0) == 0;
    assert |Split(s, sep)[0]| == 0 && |parts[0]| == k;
  }

  /** Splitting undoes joining, for all parts without the separator, exactly for
      separators that do not overlap themselves. */
  lemma SplitOfJoinIff(sep: string)
    requires sep != ""
    ensures NoOverlap(sep) <==> forall parts: seq<string> :: parts != [] && Without(parts, sep) ==> Split(Join(parts, sep), sep) == parts
  {
    if NoOverlap(sep) {
      forall parts: seq<string> | parts != [] && Without(parts, sep)
        ensures Split(Join(parts, sep), sep) == parts
      {
        SplitOfJoin(parts, sep);
      }
    } else {
      var k :| 0 < k < |sep| && sep[k..] == sep[..|sep| - k];
      OverlapSplitsTooEarly(sep, k);
    }
  }

  lemma {:induction false} PartsAreFree(s: string, c: char)
    ensures FreeOf(Split(s, [c]), c)
    decreases |s|
  {
    IndexOfIs(s, [c], 0);
    NoOccurrence(s, c);
    var k := IndexOf(s, [c], 0);
    if k >= 0 {
      PartsAreFree(s[k + 1..], c);
      forall j | 0 <= j < k
        ensures s[j] != c
      {
        assert s[j..][0] == s[j] && !([c] <= s[j..]);
      }
    }
  }

  lemma {:induction false} JoinHolds(parts: seq<string>, sep: string, c: char)
    requires FreeOf(parts, c) && c !in sep
    ensures c !in Join(parts, sep)
    decreases |parts|
  {
    if |parts| > 1 {
      JoinHolds(parts[1..], sep, c);
    }
  }

  // ----- Lines

  const Newline := '\n'

  /** Drops one newline at the end. */
  function TrimNewline(text: string): string {
    if text != "" && text[|text| - 1] == Newline then text[..|text| - 1] else text
  }

  function SplitLines(text: string): seq<string> {
    if text == "" then [] else Split(TrimNewline(text), [Newline])
  }

  function JoinLines(lines: seq<string>): string {
    if |lines| == 0 then "" else Join(lines, [Newline]) + [Newline]
  }

  lemma LinesAreFree(text: string)
    ensures FreeOf(SplitLines(text), Newline)
  {
    if text != "" {
      PartsAreFree(TrimNewline(text), Newline);
    }
  }

  /** Lines that are joined are split into the same lines. */
  lemma SplitOfJoinLines(lines: seq<string>)
    requires FreeOf(lines, Newline)
    ensures SplitLines(JoinLines(lines)) == lines
  {
    if lines != [] {
      forall i | 0 <= i < |lines|
        ensures !Occurs([Newline], lines[i])
      {
        NoOccurrence(lines[i], Newline);
      }
      SplitOfJoin(lines, [Newline]);
      assert TrimNewline(JoinLines(lines)) == Join(lines, [Newline]);
    }
  }

  predicate Terminated(text: string) {
    text == "" || text[|text| - 1] == Newline
  }

  /** Text that is split is joined to the same text, with the last line ended. */
  lemma JoinOfSplitLines(text: string)
    ensures JoinLines(SplitLines(text)) == if Terminated(text) then text else text + [Newline]
  {
    if text != "" {
      JoinOfSplit(TrimNewline(text), [Newline]);
    }
  }

  // ----- Counting lines

  /** `strings.Count` of a byte. */
  function Count(s: string, c: char): nat {
    if s == "" then 0 else Count(s[..|s| - 1], c) + if s[|s| - 1] == c then 1 else 0
  }

  lemma {:induction false} CountJoin(s: string, t: string, c: char)
    ensures Count(s + t, c) == Count(s, c) + Count(t, c)
    decreases |t|
  {
    if t == "" {
      assert s + t == s;
    } else {
      assert (s + t)[..|s + t| - 1] == s + t[..|t| - 1];
      CountJoin(s, t[..|t| - 1], c);
    }
  }

  lemma {:induction false} CountNone(s: string, c: char)
    requires c !in s
    ensures Count(s, c) == 0
  {
    if s != "" {
      CountNone(s[..|s| - 1], c);
    }
  }

  lemma CountAround(head: string, rest: string, c: char)
    requires c !in head
    ensures Count(head + ([c] + rest), c) == 1 + Count(rest, c)
  {
    CountJoin(head, [c] + rest, c);
    CountJoin([c], rest, c);
    assert [c][..0] == "" && Count([c], c) == 1;
    CountNone(head, c);
  }

  lemma {:induction false} PartsCounted(s: string, c: char)
    ensures |Split(s, [c])| == Count(s, c) + 1
    decreases |s|
  {
    IndexOfIs(s, [c], 0);
    NoOccurrence(s, c);
    var k := IndexOf(s, [c], 0);
    if k < 0 {
      CountNone(s, c);
    } else {
      PartsCounted(s[k + 1..], c);
      PartsAreFree(s, c);
      assert s[..k] == Split(s, [c])[0];
      assert s == s[..k] + ([c] + s[k + 1..]);
      CountAround(s[..k], s[k + 1..], c);
    }
  }

  /** The lines `WordCount` reports. */
  function LineCount(text: string): nat {
    Count(text, Newline) + if text != "" && text[|text| - 1] != Newline then 1 else 0
  }

  /** The line count is the number of lines the text splits into. */
  lemma LineCountIs(text: string)
    ensures LineCount(text) == |SplitLines(text)|
  {
    if text != "" {
      PartsCounted(TrimNewline(text), Newline);
    }
  }
}
