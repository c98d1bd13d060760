/** Go strings.  A Go string is a sequence of bytes; here it is a sequence of
    chars, one char for each byte. */
module GoStrings {
  function Byte(c: char): int {
    c as int
  }

  /** The length of the white-space rune at the start of `s`; 0 if there is none.
      The runes are those of `unicode.IsSpace`, in UTF-8. */
  function SpaceAtStart(s: string): nat {
    if |s| >= 1 && (9 <= Byte(s[0]) <= 13 || Byte(s[0]) == 32) then 1
    else if |s| >= 2 && Byte(s[0]) == 0xC2 && Byte(s[1]) in {0x85, 0xA0} then 2
    else if |s| >= 3 && WideSpace(Byte(s[0]), Byte(s[1]), Byte(s[2])) then 3
    else 0
  }

  /** The same for the end of `s`. */
  function SpaceAtEnd(s: string): nat {
    var n := |s|;
    if n >= 1 && (9 <= Byte(s[n - 1]) <= 13 || Byte(s[n - 1]) == 32) then 1
    else if n >= 2 && Byte(s[n - 2]) == 0xC2 && Byte(s[n - 1]) in {0x85, 0xA0} then 2
    else if n >= 3 && WideSpace(Byte(s[n - 3]), Byte(s[n - 2]), Byte(s[n - 1])) then 3
    else 0
  }

  predicate WideSpace(b0: int, b1: int, b2: int) {
    || (b0 == 0xE1 && b1 == 0x9A && b2 == 0x80)
    || (b0 == 0xE2 && b1 == 0x80 && (0x80 <= b2 <= 0x8A || b2 in {0xA8, 0xA9, 0xAF}))
    || (b0 == 0xE2 && b1 == 0x81 && b2 == 0x9F)
    || (b0 == 0xE3 && b1 == 0x80 && b2 == 0x80)
  }

  function TrimLeft(s: string): (r: string)
    decreases |s|
  {
    var n := SpaceAtStart(s);
    if n == 0 then s else TrimLeft(s[n..])
  }

  function TrimRight(s: string): (r: string)
    decreases |s|
  {
    var n := SpaceAtEnd(s);
    if n == 0 then s else TrimRight(s[..|s| - n])
  }

  /** `strings.TrimSpace`. */
  function TrimSpace(s: string): string {
    TrimRight(TrimLeft(s))
  }

  // ----- What trimming means

  /** The UTF-8 bytes of one white-space rune: U+0009 to U+000D, U+0020, U+0085, U+00A0,
      U+1680, U+2000 to U+200A, U+2028, U+2029, U+202F, U+205F and U+3000. */
  predicate WhiteRune(r: string) {
    || (|r| == 1 && (r[0] in "\t\n\r " || r[0] as int == 11 || r[0] as int == 12))
    || (|r| == 2 && r[0] as int == 0xC2 && (r[1] as int == 0x85 || r[1] as int == 0xA0))
    || (|r| == 3 && r[0] as int == 0xE1 && r[1] as int == 0x9A && r[2] as int == 0x80)
    || (|r| == 3 && r[0] as int == 0xE2 && r[1] as int == 0x80 &&
        (0x80 <= r[2] as int <= 0x8A || r[2] as int == 0xA8 || r[2] as int == 0xA9 || r[2] as int == 0xAF))
    || (|r| == 3 && r[0] as int == 0xE2 && r[1] as int == 0x81 && r[2] as int == 0x9F)
    || (|r| == 3 && r[0] as int == 0xE3 && r[1] as int == 0x80 && r[2] as int == 0x80)
  }

  /** Made of runes that pass the test, throughout. */
  ghost predicate AllOf(test: string -> bool, s: string)
    decreases |s|
  {
    s == "" || exists n :: 1 <= n <= |s| && test(s[..n]) && AllOf(test, s[n..])
  }

  ghost predicate StartsWith(test: string -> bool, s: string) {
    exists n :: 1 <= n <= |s| && test(s[..n])
  }

  ghost predicate EndsWith(test: string -> bool, s: string) {
    exists i :: 0 <= i < |s| && test(s[i..])
  }

  /** White space throughout. */
  ghost predicate AllWhite(s: string) {
    AllOf(WhiteRune, s)
  }

  /** `raw` is white space, `t` and white space, and `t` has none at its ends. */
  ghost predicate WrapsInWhite(raw: string, a: string, t: string, b: string) {
    raw == a + t + b && AllWhite(a) && AllWhite(b) && !StartsWith(WhiteRune, t) && !EndsWith(WhiteRune, t)
  }

  ghost predicate TrimmedOf(raw: string, t: string) {
    exists a, b :: WrapsInWhite(raw, a, t, b)
  }

  lemma SpaceStartIs(s: string, n: nat)
    requires 1 <= n <= |s| && WhiteRune(s[..n])
    ensures SpaceAtStart(s) == n
  {
  }

  lemma SpaceStartWhite(s: string)
    ensures SpaceAtStart(s) <= |s| && (SpaceAtStart(s) > 0 ==> WhiteRune(s[..SpaceAtStart(s)]))
  {
  }

  lemma SpaceEndIs(s: string, i: nat)
    requires i < |s| && WhiteRune(s[i..])
    ensures SpaceAtEnd(s) > 0
  {
  }

  lemma SpaceEndWhite(s: string)
    ensures SpaceAtEnd(s) <= |s| && (SpaceAtEnd(s) > 0 ==> WhiteRune(s[|s| - SpaceAtEnd(s)..]))
  {
  }

  lemma {:induction false} AllThenOne(test: string -> bool, s: string, r: string)
    requires AllOf(test, s) && r != "" && test(r)
    ensures AllOf(test, s + r)
    decreases |s|
  {
    if s == "" {
      assert (s + r)[..|r|] == r && (s + r)[|r|..] == "";
    } else {
      var n :| 1 <= n <= |s| && test(s[..n]) && AllOf(test, s[n..]);
      AllThenOne(test, s[n..], r);
      assert (s + r)[..n] == s[..n] && (s + r)[n..] == s[n..] + r;
    }
  }

  lemma OneThenAll(test: string -> bool, r: string, s: string)
    requires AllOf(test, s) && r != "" && test(r)
    ensures AllOf(test, r + s)
  {
    assert (r + s)[..|r|] == r && (r + s)[|r|..] == s;
  }

  lemma {:induction false} AllJoin(test: string -> bool, s: string, t: string)
    requires AllOf(test, s) && AllOf(test, t)
    ensures AllOf(test, s + t)
    decreases |s|
  {
    if s == "" {
      assert s + t == t;
    } else {
      var n :| 1 <= n <= |s| && test(s[..n]) && AllOf(test, s[n..]);
      AllJoin(test, s[n..], t);
      OneThenAll(test, s[..n], s[n..] + t);
      assert s[..n] + (s[n..] + t) == s + t;
    }
  }

  lemma NoSpaceAtStart(s: string)
    requires SpaceAtStart(s) == 0
    ensures !StartsWith(WhiteRune, s)
  {
    forall n | 1 <= n <= |s|
      ensures !WhiteRune(s[..n])
    {
      if WhiteRune(s[..n]) {
        SpaceStartIs(s, n);
      }
    }
  }

  lemma NoSpaceAtEnd(s: string)
    requires SpaceAtEnd(s) == 0
    ensures !EndsWith(WhiteRune, s)
  {
    forall i | 0 <= i < |s|
      ensures !WhiteRune(s[i..])
    {
      if WhiteRune(s[i..]) {
        SpaceEndIs(s, i);
      }
    }
  }

  lemma MoreInFront(s: string, k: nat, more: string, t: string)
    requires k <= |s| && s[k..] == more + t
    ensures s == s[..k] + more + t
  {
    assert s == s[..k] + s[k..];
  }

  lemma MoreBehind(s: string, k: nat, t: string, more: string)
    requires k <= |s| && s[..k] == t + more
    ensures s == t + (more + s[k..])
  {
    assert s == s[..k] + s[k..];
  }

  lemma {:induction false} TrimLeftIs(s: string) returns (a: string)
    ensures s == a + TrimLeft(s) && AllWhite(a) && SpaceAtStart(TrimLeft(s)) == 0
    decreases |s|
  {
    var n := SpaceAtStart(s);
    if n == 0 {
      a := "";
    } else {
      SpaceStartWhite(s);
      var rest := TrimLeftIs(s[n..]);
      a := s[..n] + rest;
      OneThenAll(WhiteRune, s[..n], rest);
      MoreInFront(s, n, rest, TrimLeft(s[n..]));
    }
  }

  lemma OneMoreBehind(s: string, k: nat, t: string, rest: string) returns (b: string)
    requires k < |s| && s[..k] == t + rest && AllWhite(rest) && WhiteRune(s[k..])
    ensures s == t + b && AllWhite(b)
  {
    b := rest + s[k..];
    AllThenOne(WhiteRune, rest, s[k..]);
    MoreBehind(s, k, t, rest);
  }

  lemma TrimRightStep(s: string)
    ensures SpaceAtEnd(s) == 0 ==> TrimRight(s) == s && s == s + ""
    ensures SpaceAtEnd(s) > 0 ==> TrimRight(s) == TrimRight(s[..|s| - SpaceAtEnd(s)])
  {
  }

  lemma {:induction false} TrimRightIs(s: string) returns (b: string)
    ensures s == TrimRight(s) + b && AllWhite(b) && SpaceAtEnd(TrimRight(s)) == 0
    decreases |s|
  {
    TrimRightStep(s);
    SpaceEndWhite(s);
    var k := |s| - SpaceAtEnd(s);
    if k == |s| {
      b := "";
    } else {
      var front := s[..k];
      var rest := TrimRightIs(front);
      b := OneMoreBehind(s, k, TrimRight(front), rest);
    }
  }

  /** What starts a text without white space at the start starts without it. */
  lemma PrefixStarts(s: string, b: string)
    requires !StartsWith(WhiteRune, s + b)
    ensures !StartsWith(WhiteRune, s)
  {
    forall n | 1 <= n <= |s|
      ensures !WhiteRune(s[..n])
    {
      assert s[..n] == (s + b)[..n];
    }
  }

  /** Trimming takes white space off both ends, and leaves none there. */
  lemma TrimSpaceIs(s: string)
    ensures TrimmedOf(s, TrimSpace(s))
  {
    var a := TrimLeftIs(s);
    var b := TrimRightIs(TrimLeft(s));
    NoSpaceAtStart(TrimLeft(s));
    NoSpaceAtEnd(TrimSpace(s));
    Wrapped(s, a, TrimLeft(s), TrimSpace(s), b);
  }

  lemma Wrapped(s: string, a: string, left: string, t: string, b: string)
    requires s == a + left && left == t + b && AllWhite(a) && AllWhite(b)
    requires !StartsWith(WhiteRune, left) && !EndsWith(WhiteRune, t)
    ensures TrimmedOf(s, t)
  {
    PrefixStarts(t, b);
    assert a + (t + b) == a + t + b;
    assert WrapsInWhite(s, a, t, b);
  }

  lemma {:induction false} WhiteTrimsLeft(s: string)
    requires AllWhite(s)
    ensures TrimLeft(s) == ""
    decreases |s|
  {
    if s != "" {
      var n :| 1 <= n <= |s| && WhiteRune(s[..n]) && AllOf(WhiteRune, s[n..]);
      SpaceStartIs(s, n);
      WhiteTrimsLeft(s[n..]);
    }
  }

  lemma NothingBetween(s: string, a: string, left: string, b: string)
    requires s == a + left && left == "" + b && AllWhite(a) && AllWhite(b)
    ensures AllWhite(s)
  {
    AllJoin(WhiteRune, a, b);
    assert left == b;
  }

  /** Nothing is left exactly when all was white space. */
  lemma TrimsToNothingIff(s: string)
    ensures TrimSpace(s) == "" <==> AllWhite(s)
  {
    if AllWhite(s) {
      WhiteTrimsLeft(s);
    }
    if TrimSpace(s) == "" {
      var a := TrimLeftIs(s);
      var b := TrimRightIs(TrimLeft(s));
      NothingBetween(s, a, TrimLeft(s), b);
    }
  }

  /** Runs of white runes end in a white rune. */
  lemma {:induction false} LastOf(test: string -> bool, s: string) returns (k: nat)
    requires s != "" && AllOf(test, s)
    ensures k < |s| && AllOf(test, s[..k]) && test(s[k..])
    decreases |s|
  {
    var n :| 1 <= n <= |s| && test(s[..n]) && AllOf(test, s[n..]);
    if n == |s| {
      k := 0;
      assert s[..n] == s && s[0..] == s && s[..0] == "";
    } else {
      var rest := LastOf(test, s[n..]);
      k := n + rest;
      OneThenAll(test, s[..n], s[n..][..rest]);
      assert s[..k] == s[..n] + s[n..][..rest];
      assert s[k..] == s[n..][rest..];
    }
  }

  lemma SpaceEndIsAll(s: string, r: string)
    requires WhiteRune(r)
    ensures SpaceAtEnd(s + r) == |r| && (s + r)[..|s|] == s
  {
    var t := s + r;
    assert t[|t| - 1] == r[|r| - 1];
    assert |r| >= 2 ==> t[|t| - 2] == r[|r| - 2];
    assert |r| >= 3 ==> t[|t| - 3] == r[|r| - 3];
  }

  lemma Rejoined(t: string, b: string, k: nat)
    requires k <= |b|
    ensures t + b[..k] + b[k..] == t + b
  {
  }

  lemma FrontOf(a: string, t: string, n: nat)
    requires n <= |a|
    ensures (a + t)[..n] == a[..n] && (a + t)[n..] == a[n..] + t
  {
  }

  lemma {:induction false} TrimRightWhite(t: string, b: string)
    requires AllWhite(b)
    ensures TrimRight(t + b) == TrimRight(t)
    decreases |b|
  {
    if b == "" {
      assert t + b == t;
    } else {
      var k := LastOf(WhiteRune, b);
      SpaceEndIsAll(t + b[..k], b[k..]);
      Rejoined(t, b, k);
      TrimRightStep(t + b);
      TrimRightWhite(t, b[..k]);
    }
  }

  lemma {:induction false} TrimLeftWhite(a: string, t: string)
    requires AllWhite(a)
    ensures TrimLeft(a + t) == TrimLeft(t)
    decreases |a|
  {
    if a == "" {
      assert a + t == t;
    } else {
      var n :| 1 <= n <= |a| && WhiteRune(a[..n]) && AllOf(WhiteRune, a[n..]);
      FrontOf(a, t, n);
      SpaceStartIs(a + t, n);
      TrimLeftWhite(a[n..], t);
    }
  }

  /** In a white rune only the bytes after the first are continuation bytes. */
  lemma WhiteBytes(r: string)
    requires WhiteRune(r)
    ensures !(0x80 <= r[0] as int <= 0xBF) && forall i :: 1 <= i < |r| ==> 0x80 <= r[i] as int <= 0xBF
  {
  }

  lemma WhiteLead(b: string)
    requires b != "" && AllWhite(b)
    ensures !(0x80 <= b[0] as int <= 0xBF)
  {
    var m :| 1 <= m <= |b| && WhiteRune(b[..m]) && AllOf(WhiteRune, b[m..]);
    WhiteBytes(b[..m]);
    assert b[..m][0] == b[0];
  }

  lemma ByteAfter(t: string, b: string, n: nat)
    requires |t| < n <= |t + b|
    ensures (t + b)[..n][|t|] == b[0]
  {
  }

  lemma RuneStays(t: string, b: string, n: nat)
    requires t != "" && AllWhite(b) && n <= |t + b| && WhiteRune((t + b)[..n])
    ensures n <= |t|
  {
    WhiteBytes((t + b)[..n]);
    if n > |t| {
      ByteAfter(t, b, n);
      WhiteLead(b);
    }
  }

  /** No white rune straddles the end of a text that is followed by white space. */
  lemma NoStraddling(t: string, b: string)
    requires t != "" && !StartsWith(WhiteRune, t) && AllWhite(b)
    ensures SpaceAtStart(t + b) == 0
  {
    var s := t + b;
    SpaceStartWhite(s);
    var n := SpaceAtStart(s);
    if WhiteRune(s[..n]) {
      RuneStays(t, b, n);
    }
    assert n <= |t| ==> s[..n] == t[..n];
  }

  lemma TrimmedIs(s: string, a: string, t: string, b: string)
    requires WrapsInWhite(s, a, t, b)
    ensures TrimSpace(s) == t
  {
    assert s == a + (t + b);
    TrimLeftWhite(a, t + b);
    if t == "" {
      assert t + b == b;
      WhiteTrimsLeft(b);
    } else {
      NoStraddling(t, b);
      TrimRightWhite(t, b);
      SpaceEndWhite(t);
    }
  }

  /** The trimmed text is the only one that white space can be put around to get the
      text. */
  lemma TrimSpaceIff(s: string, t: string)
    ensures TrimmedOf(s, t) <==> t == TrimSpace(s)
  {
    TrimSpaceIs(s);
    if a, b :| WrapsInWhite(s, a, t, b) {
      TrimmedIs(s, a, t, b);
    }
  }

  lemma NoEarlierSeparator(sep: char, a: string, b: string, c: string, d: string)
    requires a + [sep] + b == c + [sep] + d && sep !in c
    ensures |a| >= |c|
  {
    var t := c + [sep] + d;
    assert (a + [sep] + b)[|a|] == sep;
    assert forall i :: 0 <= i < |c| ==> t[i] == c[i];
  }

  /** Two texts joined by a character tell both, if the first does not hold it. */
  lemma SeparatedParts(sep: char, a: string, b: string, c: string, d: string)
    requires sep !in a && sep !in c
    ensures a + [sep] + b == c + [sep] + d <==> a == c && b == d
  {
    var s, t := a + [sep] + b, c + [sep] + d;
    if s == t {
      NoEarlierSeparator(sep, a, b, c, d);
      NoEarlierSeparator(sep, c, d, a, b);
      assert a == s[..|a|] && c == t[..|c|] && b == s[|a| + 1..] && d == t[|c| + 1..];
    }
  }

  // ----- Letter case, for comparison with ASCII words

  function LowerByte(c: char): char {
    if 'A' <= c <= 'Z' then (c as int + 32) as char else c
  }

  /** `strings.ToLower` as far as ASCII letters come out of it: besides A to Z
      these are the runes U+0130 and U+212A. */
  function ToLower(s: string): string
    decreases |s|
  {
    if s == [] then []
    else if |s| >= 2 && Byte(s[0]) == 0xC4 && Byte(s[1]) == 0xB0 then "i" + ToLower(s[2..])
    else if |s| >= 3 && Byte(s[0]) == 0xE2 && Byte(s[1]) == 0x84 && Byte(s[2]) == 0xAA then "k" + ToLower(s[3..])
    else [LowerByte(s[0])] + ToLower(s[1..])
  }

  /** Case folding: besides A to Z, the runes U+017F and U+212A fold to ASCII. */
  function Fold(s: string): string
    decreases |s|
  {
    if s == [] then []
    else if |s| >= 2 && Byte(s[0]) == 0xC5 && Byte(s[1]) == 0xBF then "s" + Fold(s[2..])
    else if |s| >= 3 && Byte(s[0]) == 0xE2 && Byte(s[1]) == 0x84 && Byte(s[2]) == 0xAA then "k" + Fold(s[3..])
    else [LowerByte(s[0])] + Fold(s[1..])
  }

  /** `strings.EqualFold` where one of the strings is ASCII. */
  predicate EqualFold(s: string, t: string) {
    Fold(s) == Fold(t)
  }

  /** `strings.Contains`. */
  predicate Contains(s: string, sub: string) {
    sub <= s || (s != [] && Contains(s[1..], sub))
  }

  // ----- What these comparisons mean

  /** A word without capitals, all of ASCII. */
  predicate LowerWord(w: string) {
    forall i :: 0 <= i < |w| ==> w[i] as int < 128 && !('A' <= w[i] <= 'Z')
  }

  /** The character itself, or its capital. */
  predicate EitherCase(r: string, c: char) {
    |r| == 1 && (r[0] == c || ('a' <= c <= 'z' && r[0] as int == c as int - 32))
  }

  predicate Kelvin(r: string) {
    |r| == 3 && r[0] as int == 0xE2 && r[1] as int == 0x84 && r[2] as int == 0xAA
  }

  /** The rune `r` reads as `c` when case does not matter: besides the capital these
      are U+017F for s and U+212A for k. */
  predicate FoldsTo(r: string, c: char) {
    EitherCase(r, c) || (c == 'k' && Kelvin(r)) || (c == 's' && |r| == 2 && r[0] as int == 0xC5 && r[1] as int == 0xBF)
  }

  /** The rune `r` is lowered to `c`: besides the capital these are U+0130 for i and
      U+212A for k. */
  predicate LowersTo(r: string, c: char) {
    EitherCase(r, c) || (c == 'k' && Kelvin(r)) || (c == 'i' && |r| == 2 && r[0] as int == 0xC4 && r[1] as int == 0xB0)
  }

  /** Rune by rune, `s` reads as the word, followed by `rest`. */
  ghost predicate Spells(asRead: (string, char) -> bool, s: string, word: string, rest: string)
    decreases |word|
  {
    if word == "" then s == rest
    else exists n :: 1 <= n <= |s| && asRead(s[..n], word[0]) && Spells(asRead, s[n..], word[1..], rest)
  }

  /** The bytes that the rune at the start of a text takes, and what it folds to. */
  function FoldedRune(s: string): (char, nat)
    requires s != ""
  {
    if |s| >= 2 && Byte(s[0]) == 0xC5 && Byte(s[1]) == 0xBF then ('s', 2)
    else if |s| >= 3 && Byte(s[0]) == 0xE2 && Byte(s[1]) == 0x84 && Byte(s[2]) == 0xAA then ('k', 3)
    else (LowerByte(s[0]), 1)
  }

  function LoweredRune(s: string): (char, nat)
    requires s != ""
  {
    if |s| >= 2 && Byte(s[0]) == 0xC4 && Byte(s[1]) == 0xB0 then ('i', 2)
    else if |s| >= 3 && Byte(s[0]) == 0xE2 && Byte(s[1]) == 0x84 && Byte(s[2]) == 0xAA then ('k', 3)
    else (LowerByte(s[0]), 1)
  }

  lemma FoldedRuneIs(s: string, n: nat, c: char)
    requires 1 <= n <= |s| && LowerWord([c])
    ensures FoldedRune(s).1 <= |s|
    ensures FoldsTo(s[..n], c) <==> FoldedRune(s) == (c, n)
  {
    assert [c][0] == c;
  }

  lemma LoweredRuneIs(s: string, n: nat, c: char)
    requires 1 <= n <= |s| && LowerWord([c])
    ensures LoweredRune(s).1 <= |s|
    ensures LowersTo(s[..n], c) <==> LoweredRune(s) == (c, n)
  {
    assert [c][0] == c;
  }

  lemma TailOfWord(w: string)
    requires w != "" && LowerWord(w)
    ensures LowerWord(w[1..]) && LowerWord([w[0]])
  {
  }

  lemma SameHead(a: char, s: string, w: string)
    ensures [a] + s == w <==> w != "" && w[0] == a && s == w[1..]
    ensures w != "" ==> (w <= [a] + s <==> w[0] == a && w[1..] <= s)
  {
    if w != "" {
      assert w == [w[0]] + w[1..];
      assert ([a] + s)[1..] == s;
      assert |w| <= |s| + 1 ==> ([a] + s)[..|w|] == [a] + s[..|w| - 1];
    }
  }

  lemma {:induction false} FoldSpells(s: string, w: string)
    requires LowerWord(w)
    ensures Fold(s) == w <==> Spells(FoldsTo, s, w, "")
    decreases |s|
  {
    if s != "" && w != "" {
      FoldedRuneIs(s, 1, w[0]);
      var (d, h) := FoldedRune(s);
      assert Fold(s) == [d] + Fold(s[h..]);
      SameHead(d, Fold(s[h..]), w);
      TailOfWord(w);
      FoldSpells(s[h..], w[1..]);
      forall n | 1 <= n <= |s|
        ensures FoldsTo(s[..n], w[0]) <==> FoldedRune(s) == (w[0], n)
      {
        FoldedRuneIs(s, n, w[0]);
      }
      assert FoldsTo(s[..h], w[0]) <==> d == w[0];
    }
  }

  lemma {:induction false} FoldOfWord(w: string)
    requires LowerWord(w)
    ensures Fold(w) == w
  {
    if w != "" {
      TailOfWord(w);
      FoldOfWord(w[1..]);
      assert w == [w[0]] + w[1..];
    }
  }

  /** A text equals a word under folding exactly when it spells the word, with case
      ignored. */
  lemma EqualFoldIff(s: string, w: string)
    requires LowerWord(w)
    ensures EqualFold(s, w) <==> Spells(FoldsTo, s, w, "")
  {
    FoldOfWord(w);
    FoldSpells(s, w);
  }

  /** `s` starts with a spelling of the word. */
  ghost predicate Opens(asRead: (string, char) -> bool, s: string, word: string) {
    exists rest :: Spells(asRead, s, word, rest)
  }

  /** Somewhere in `s`, from its byte `i` on, the word is spelled. */
  ghost predicate SpelledAt(asRead: (string, char) -> bool, s: string, word: string, i: int) {
    0 <= i <= |s| && Opens(asRead, s[i..], word)
  }

  lemma OpensStep(asRead: (string, char) -> bool, s: string, w: string, h: nat)
    requires w != "" && 1 <= h
    requires forall n :: 1 <= n <= |s| && asRead(s[..n], w[0]) ==> n == h
    ensures Opens(asRead, s, w) <==> h <= |s| && asRead(s[..h], w[0]) && Opens(asRead, s[h..], w[1..])
  {
    if rest :| Spells(asRead, s, w, rest) {
      assert Spells(asRead, s[h..], w[1..], rest);
    }
    if h <= |s| && asRead(s[..h], w[0]) && Opens(asRead, s[h..], w[1..]) {
      var rest :| Spells(asRead, s[h..], w[1..], rest);
      assert Spells(asRead, s, w, rest);
    }
  }

  lemma {:induction false} LowerSpells(s: string, w: string)
    requires LowerWord(w)
    ensures w <= ToLower(s) <==> Opens(LowersTo, s, w)
    decreases |s|
  {
    if w == "" {
      assert Spells(LowersTo, s, w, s);
    } else if s != "" {
      LoweredRuneIs(s, 1, w[0]);
      var (d, h) := LoweredRune(s);
      assert ToLower(s) == [d] + ToLower(s[h..]);
      SameHead(d, ToLower(s[h..]), w);
      TailOfWord(w);
      LowerSpells(s[h..], w[1..]);
      forall n | 1 <= n <= |s|
        ensures LowersTo(s[..n], w[0]) <==> LoweredRune(s) == (w[0], n)
      {
        LoweredRuneIs(s, n, w[0]);
      }
      OpensStep(LowersTo, s, w, h);
    }
  }

  /** Lowering a text gives a word exactly when the text spells it, with capitals read
      as small letters. */
  lemma {:induction false} ToLowerIff(s: string, w: string)
    requires LowerWord(w)
    ensures ToLower(s) == w <==> Spells(LowersTo, s, w, "")
    decreases |s|
  {
    if s != "" && w != "" {
      LoweredRuneIs(s, 1, w[0]);
      var (d, h) := LoweredRune(s);
      assert ToLower(s) == [d] + ToLower(s[h..]);
      SameHead(d, ToLower(s[h..]), w);
      TailOfWord(w);
      ToLowerIff(s[h..], w[1..]);
      forall n | 1 <= n <= |s|
        ensures LowersTo(s[..n], w[0]) <==> LoweredRune(s) == (w[0], n)
      {
        LoweredRuneIs(s, n, w[0]);
      }
      assert LowersTo(s[..h], w[0]) <==> d == w[0];
    }
  }

  /** A word cannot start inside a rune of several bytes. */
  lemma NotInsideRune(s: string, i: int, w: string)
    requires s != "" && 0 < i < LoweredRune(s).1 && LowerWord(w) && w != ""
    ensures !SpelledAt(LowersTo, s, w, i)
  {
    if i <= |s| {
      forall n | 1 <= n <= |s[i..]|
        ensures !LowersTo(s[i..][..n], w[0])
      {
        assert s[i..][..n][0] == s[i];
      }
    }
  }

  lemma SpelledLater(asRead: (string, char) -> bool, s: string, h: nat, w: string, i: int)
    requires h <= i && h <= |s|
    ensures SpelledAt(asRead, s, w, i) <==> SpelledAt(asRead, s[h..], w, i - h)
  {
    if i <= |s| {
      assert s[h..][i - h..] == s[i..];
    }
  }

  /** The lowered text contains a word exactly when the text spells it somewhere, with
      capitals read as small letters. */
  lemma {:induction false} LowerContainsIff(s: string, w: string)
    requires LowerWord(w) && w != ""
    ensures Contains(ToLower(s), w) <==> exists i :: SpelledAt(LowersTo, s, w, i)
    decreases |s|
  {
    LowerSpells(s, w);
    assert s[0..] == s;
    assert Opens(LowersTo, s, w) <==> SpelledAt(LowersTo, s, w, 0);
    if s != "" {
      LoweredRuneIs(s, 1, 'a');
      var (d, h) := LoweredRune(s);
      var lowered := ToLower(s);
      assert lowered == [d] + ToLower(s[h..]) && lowered[1..] == ToLower(s[h..]);
      LowerContainsIff(s[h..], w);
      forall i
        ensures i >= h ==> (SpelledAt(LowersTo, s, w, i) <==> SpelledAt(LowersTo, s[h..], w, i - h))
        ensures 0 < i < h ==> !SpelledAt(LowersTo, s, w, i)
      {
        if i >= h {
          SpelledLater(LowersTo, s, h, w, i);
        } else if i > 0 {
          NotInsideRune(s, i, w);
        }
      }
      if i :| SpelledAt(LowersTo, s[h..], w, i) {
        SpelledLater(LowersTo, s, h, w, i + h);
      }
    }
  }

  // ----- Decimal numerals

  function Digit(d: nat): char
    requires d < 10
  {
    ('0' as int + d) as char
  }

  predicate IsDigit(c: char) {
    '0' <= c <= '9'
  }

  function DigitValue(c: char): nat
    requires IsDigit(c)
  {
    c as int - '0' as int
  }

  /** `strconv.Itoa` on a number that is not negative. */
  function Itoa(n: nat): (s: string)
    ensures s != [] && forall i :: 0 <= i < |s| ==> IsDigit(s[i])
  {
    if n < 10 then [Digit(n)] else Itoa(n / 10) + [Digit(n % 10)]
  }

  /** The number a string of digits denotes. */
  function Atoi(s: string): nat
    requires forall i :: 0 <= i < |s| ==> IsDigit(s[i])
  {
    if s == [] then 0
    else 10 * Atoi(s[..|s| - 1]) + DigitValue(s[|s| - 1])
  }

  lemma DigitIs(d: nat)
    requires d < 10
    ensures Digit(d) == "0123456789"[d] && DigitValue(Digit(d)) == d
  {
  }

  lemma {:induction false} AtoiItoa(n: nat)
    ensures Atoi(Itoa(n)) == n
  {
    if n >= 10 {
      AtoiItoa(n / 10);
      assert Itoa(n)[..|Itoa(n)| - 1] == Itoa(n / 10);
    } else {
      assert Itoa(n)[..0] == [];
    }
  }

  lemma {:induction false} NoLeadingZero(n: nat)
    ensures |Itoa(n)| > 1 ==> Itoa(n)[0] != '0'
    ensures n > 0 ==> Itoa(n)[0] != '0'
  {
    if n >= 10 {
      NoLeadingZero(n / 10);
    }
  }

  /** Different numbers have different numerals. */
  lemma ItoaInjective(m: nat, n: nat)
    requires Itoa(m) == Itoa(n)
    ensures m == n
  {
    AtoiItoa(m);
    AtoiItoa(n);
  }
}
