/** Extraction of the main content from a rendered page: collect candidates,
    clean a copy of each, and keep the best. */
module RenderedDom {
  import opened GoStrings
  import opened Options
  import opened LinkedTree
  import opened TreeWalk
  import opened PageRules

  // ----- Candidates

  /** The tests of the four tiers of candidates. */
  datatype Matchers = Matchers(main: Info -> bool, roleMain: Info -> bool, article: Info -> bool, body: Info -> bool)

  datatype TierWords = TierWords(main: string, role: string, article: string, body: string)

  const PageWords := TierWords("main", "role", "article", "body")

  function MatchersOf(w: TierWords): Matchers {
    Matchers(info => HasTag(info, w.main), info => HasAttrValue(info, w.role, w.main),
             info => HasTag(info, w.article), info => HasTag(info, w.body))
  }

  const MainBonus := 60
  const RoleMainBonus := 50
  const ArticleBonus := 40
  const BodyBonus := 0

  datatype Candidate = Candidate(node: Node, sourceBonus: int, sourceKind: string)

  function SourceKind(bonus: int): string {
    if bonus == MainBonus then "main"
    else if bonus == RoleMainBonus then "role_main"
    else if bonus == ArticleBonus then "article"
    else "body"
  }

  /** The first tier a node belongs to; 4 if none. */
  ghost function FirstTier(m: Matchers, info: Info): nat {
    if m.main(info) then 0 else if m.roleMain(info) then 1 else if m.article(info) then 2
    else if m.body(info) then 3 else 4
  }

  ghost function InTier(m: Matchers, tier: nat): Info -> bool {
    info => FirstTier(m, info) == tier
  }

  ghost function Tier(m: Matchers, nodes: seq<Node>, tier: nat): seq<Node> {
    Select(InTier(m, tier), nodes)
  }

  ghost function AsCandidates(nodes: seq<Node>, bonus: int): seq<Candidate> {
    seq(|nodes|, i requires 0 <= i < |nodes| => Candidate(nodes[i], bonus, SourceKind(bonus)))
  }

  function Bonus(tier: nat): int {
    if tier == 0 then MainBonus else if tier == 1 then RoleMainBonus else if tier == 2 then ArticleBonus else BodyBonus
  }

  /** The candidates of the first `tiers` tiers, each in document order. */
  ghost function Candidates(m: Matchers, nodes: seq<Node>, tiers: nat): seq<Candidate> {
    if tiers == 0 then []
    else Candidates(m, nodes, tiers - 1) + AsCandidates(Tier(m, nodes, tiers - 1), Bonus(tiers - 1))
  }

  ghost function Unseen(nodes: seq<Node>, seen: set<Node>): seq<Node> {
    if nodes == [] then []
    else
      var rest := Unseen(nodes[..|nodes| - 1], seen);
      var last := nodes[|nodes| - 1];
      if last in seen then rest else rest + [last]
  }

  method AppendMatches(nodes: seq<Node>, bonus: int, candidates: seq<Candidate>, seen: set<Node>)
      returns (more: seq<Candidate>, seenNow: set<Node>)
    requires NoRepeats(nodes)
    ensures more == candidates + AsCandidates(Unseen(nodes, seen), bonus)
    ensures seenNow == seen + set n | n in nodes
  {
    more, seenNow := candidates, seen;
    for i := 0 to |nodes|
      invariant more == candidates + AsCandidates(Unseen(nodes[..i], seen), bonus)
      invariant seenNow == seen + set n | n in nodes[..i]
    {
      var node := nodes[i];
      assert nodes[..i + 1][..i] == nodes[..i];
      assert node !in nodes[..i];
      if node in seenNow {
        continue;
      }
      seenNow := seenNow + {node};
      more := more + [Candidate(node, bonus, SourceKind(bonus))];
    }
    assert nodes[..|nodes|] == nodes;
  }

  ghost predicate SeenBefore(m: Matchers, nodes: seq<Node>, tier: nat, seen: set<Node>) {
    forall x :: x in nodes ==> (x in seen <==> FirstTier(m, x.info) < tier)
  }

  /** Of the nodes one tier's test accepts, those not seen before are the tier. */
  lemma {:induction false} UnseenIsTier(m: Matchers, test: Info -> bool, nodes: seq<Node>, tier: nat, seen: set<Node>)
    requires SeenBefore(m, nodes, tier, seen)
    requires forall x :: x in nodes && FirstTier(m, x.info) >= tier ==> (test(x.info) <==> FirstTier(m, x.info) == tier)
    ensures Unseen(Select(test, nodes), seen) == Tier(m, nodes, tier)
  {
    if nodes != [] {
      var front, last := nodes[..|nodes| - 1], nodes[|nodes| - 1];
      assert forall x :: x in front ==> x in nodes;
      UnseenIsTier(m, test, front, tier, seen);
      var r := Select(test, front);
      assert (r + [last])[..|r|] == r;
    }
  }

  lemma {:induction false} SelectMember(test: Info -> bool, nodes: seq<Node>, x: Node)
    ensures x in Select(test, nodes) <==> x in nodes && test(x.info)
  {
    if nodes != [] {
      SelectMember(test, nodes[..|nodes| - 1], x);
    }
  }

  lemma {:induction false} SelectNoRepeats(test: Info -> bool, nodes: seq<Node>)
    requires NoRepeats(nodes)
    ensures NoRepeats(Select(test, nodes))
  {
    if nodes != [] {
      var front, last := nodes[..|nodes| - 1], nodes[|nodes| - 1];
      SelectNoRepeats(test, front);
      SelectMember(test, front, last);
      assert last !in front;
    }
  }

  lemma TierMember(m: Matchers, nodes: seq<Node>, tier: nat, x: Node)
    ensures x in Tier(m, nodes, tier) <==> x in nodes && FirstTier(m, x.info) == tier
  {
    SelectMember(InTier(m, tier), nodes, x);
    assert InTier(m, tier)(x.info) <==> FirstTier(m, x.info) == tier;
  }

  /** One call of `findElements` and `appendMatches`. */
  method CollectTier(document: Node, m: Matchers, test: Info -> bool, bonus: int, ghost tier: nat,
                     candidates: seq<Candidate>, seen: set<Node>, ghost s: Shape)
      returns (more: seq<Candidate>, seenNow: set<Node>)
    requires s.node == document && Distinct(s) && Linked(s)
    requires SeenBefore(m, PreOrder(s), tier, seen)
    requires candidates == Candidates(m, PreOrder(s), tier) && bonus == Bonus(tier)
    requires forall info :: FirstTier(m, info) >= tier ==> (test(info) <==> FirstTier(m, info) == tier)
    ensures more == Candidates(m, PreOrder(s), tier + 1)
    ensures SeenBefore(m, PreOrder(s), tier + 1, seenNow)
  {
    var nodes := FindElements(document, test, s);
    PreOrderNoRepeats(s);
    SelectNoRepeats(test, PreOrder(s));
    UnseenIsTier(m, test, PreOrder(s), tier, seen);
    more, seenNow := AppendMatches(nodes, bonus, candidates, seen);
    forall x | x in PreOrder(s)
      ensures x in seenNow <==> FirstTier(m, x.info) < tier + 1
    {
      SelectMember(test, PreOrder(s), x);
      assert x in seenNow <==> x in seen || x in nodes;
    }
  }

  method CollectRenderedDOMCandidates(document: Node, m: Matchers, ghost s: Shape) returns (candidates: seq<Candidate>)
    requires s.node == document && Distinct(s) && Linked(s)
    ensures candidates == Candidates(m, PreOrder(s), 4)
  {
    var seen: set<Node> := {};
    candidates := [];
    candidates, seen := CollectTier(document, m, m.main, MainBonus, 0, candidates, seen, s);
    candidates, seen := CollectTier(document, m, m.roleMain, RoleMainBonus, 1, candidates, seen, s);
    candidates, seen := CollectTier(document, m, m.article, ArticleBonus, 2, candidates, seen, s);
    candidates, seen := CollectTier(document, m, m.body, BodyBonus, 3, candidates, seen, s);
  }

  lemma {:induction false} CandidateTier(m: Matchers, nodes: seq<Node>, tiers: nat, i: nat)
    requires i < |Candidates(m, nodes, tiers)|
    ensures var c := Candidates(m, nodes, tiers)[i];
            var tier := FirstTier(m, c.node.info);
            c.node in nodes && tier < tiers && c.sourceBonus == Bonus(tier) && c.sourceKind == SourceKind(Bonus(tier))
  {
    var before := Candidates(m, nodes, tiers - 1);
    if i < |before| {
      CandidateTier(m, nodes, tiers - 1, i);
    } else {
      TierMember(m, nodes, tiers - 1, Candidates(m, nodes, tiers)[i].node);
    }
  }

  lemma {:induction false} SelectInOrder(test: Info -> bool, nodes: seq<Node>, i: nat, j: nat)
    requires i < j < |Select(test, nodes)|
    ensures Precedes(nodes, Select(test, nodes)[i], Select(test, nodes)[j])
  {
    var front := nodes[..|nodes| - 1];
    var before := Select(test, front);
    if j < |before| {
      SelectInOrder(test, front, i, j);
      var p, q :| 0 <= p < q < |front| && front[p] == before[i] && front[q] == before[j];
      assert nodes[p] == before[i] && nodes[q] == before[j];
    } else {
      SelectMember(test, front, before[i]);
      var p :| 0 <= p < |front| && front[p] == before[i];
      assert nodes[p] == before[i];
    }
  }

  lemma TierInOrder(m: Matchers, nodes: seq<Node>, tier: nat, i: nat, j: nat)
    requires i < j < |Tier(m, nodes, tier)| && NoRepeats(nodes)
    ensures var t := Tier(m, nodes, tier);
            t[i] != t[j] && FirstTier(m, t[i].info) == FirstTier(m, t[j].info) == tier && Precedes(nodes, t[i], t[j])
  {
    var t := Tier(m, nodes, tier);
    TierMember(m, nodes, tier, t[i]);
    TierMember(m, nodes, tier, t[j]);
    SelectNoRepeats(InTier(m, tier), nodes);
    SelectInOrder(InTier(m, tier), nodes, i, j);
  }

  /** `x` is listed before `y` for a reason: an earlier tier, or an earlier place. */
  ghost predicate Ranked(m: Matchers, nodes: seq<Node>, x: Node, y: Node) {
    && x != y
    && (FirstTier(m, x.info) < FirstTier(m, y.info) ||
        (FirstTier(m, x.info) == FirstTier(m, y.info) && Precedes(nodes, x, y)))
  }

  lemma {:induction false} CandidatesInOrder(m: Matchers, nodes: seq<Node>, tiers: nat, i: nat, j: nat)
    requires i < j < |Candidates(m, nodes, tiers)| && NoRepeats(nodes)
    ensures Ranked(m, nodes, Candidates(m, nodes, tiers)[i].node, Candidates(m, nodes, tiers)[j].node)
  {
    var before := Candidates(m, nodes, tiers - 1);
    if j < |before| {
      CandidatesInOrder(m, nodes, tiers - 1, i, j);
    } else if i < |before| {
      TierMember(m, nodes, tiers - 1, Candidates(m, nodes, tiers)[j].node);
      CandidateTier(m, nodes, tiers - 1, i);
    } else {
      TierInOrder(m, nodes, tiers - 1, i - |before|, j - |before|);
    }
  }

  lemma {:induction false} CandidateOf(m: Matchers, nodes: seq<Node>, tiers: nat, x: Node) returns (i: nat)
    requires x in nodes && FirstTier(m, x.info) < tiers
    ensures i < |Candidates(m, nodes, tiers)| && Candidates(m, nodes, tiers)[i].node == x
  {
    if FirstTier(m, x.info) < tiers - 1 {
      i := CandidateOf(m, nodes, tiers - 1, x);
    } else {
      TierMember(m, nodes, tiers - 1, x);
      var t := Tier(m, nodes, tiers - 1);
      var j :| 0 <= j < |t| && t[j] == x;
      i := |Candidates(m, nodes, tiers - 1)| + j;
    }
  }

  /** Each matching node is a candidate exactly once, with the bonus of the first
      tier it matches; earlier tiers come first and within a tier the document's order
      holds; no other node is a candidate. */
  lemma CandidatesAreMatches(m: Matchers, nodes: seq<Node>)
    requires NoRepeats(nodes)
    ensures var c := Candidates(m, nodes, 4);
            && (forall x :: x in nodes && FirstTier(m, x.info) < 4 ==> exists i :: 0 <= i < |c| && c[i].node == x)
            && (forall i :: 0 <= i < |c| ==>
                  c[i].node in nodes && FirstTier(m, c[i].node.info) < 4 && c[i].sourceBonus == Bonus(FirstTier(m, c[i].node.info)))
            && (forall i, j :: 0 <= i < j < |c| ==> Ranked(m, nodes, c[i].node, c[j].node))
  {
    var c := Candidates(m, nodes, 4);
    forall x | x in nodes && FirstTier(m, x.info) < 4
      ensures exists i :: 0 <= i < |c| && c[i].node == x
    {
      var i := CandidateOf(m, nodes, 4, x);
    }
    forall i | 0 <= i < |c|
      ensures c[i].node in nodes && FirstTier(m, c[i].node.info) < 4 && c[i].sourceBonus == Bonus(FirstTier(m, c[i].node.info))
    {
      CandidateTier(m, nodes, 4, i);
    }
    forall i, j | 0 <= i < j < |c|
      ensures Ranked(m, nodes, c[i].node, c[j].node)
    {
      CandidatesInOrder(m, nodes, 4, i, j);
    }
  }

  // ----- The best candidate

  datatype Quality = Quality(textRunes: int, score: int, semanticSignals: int)

  datatype Extract = Extract(markdown: string, quality: Quality, sourceKind: string)

  /** What the libraries do: rendering a tree to HTML, converting HTML to
      Markdown, and rating the Markdown found at a candidate. */
  datatype Pipeline = Pipeline(
    render: Tree -> string,
    convert: string -> Option<string>,
    assess: (string, int) -> Quality)

  /** What one candidate yields, as a function of its part of the document. */
  ghost function Evaluate(p: Pipeline, drop: Info -> bool, t: Tree, bonus: int): Option<Extract> {
    var rendered := TrimSpace(p.render(Pruned(drop, t)));
    if rendered == "" || p.convert(rendered).None? then None
    else
      var markdown := TrimSpace(p.convert(rendered).value);
      var quality := p.assess(markdown, bonus);
      if quality.textRunes == 0 then None else Some(Extract(markdown, quality, SourceKind(bonus)))
  }

  ghost predicate Converts(p: Pipeline, t: Tree, html: string, text: string) {
    TrimmedOf(p.render(t), html) && html != "" && p.convert(html) == Some(text)
  }

  /** A candidate yields the Markdown its cleaned tree converts to, without white space
      around it, rated with the candidate's bonus.  It yields nothing if it renders to
      white space, cannot be converted, or has no text. */
  ghost predicate Yields(p: Pipeline, t: Tree, bonus: int, kind: string, r: Option<Extract>) {
    match r
    case Some(e) =>
      && (exists html, text :: Converts(p, t, html, text) && TrimmedOf(text, e.markdown))
      && e.quality == p.assess(e.markdown, bonus) && e.quality.textRunes != 0 && e.sourceKind == kind
    case None =>
      || AllWhite(p.render(t))
      || (exists html :: TrimmedOf(p.render(t), html) && p.convert(html) == None)
      || (exists html, text, markdown ::
            Converts(p, t, html, text) && TrimmedOf(text, markdown) && p.assess(markdown, bonus).textRunes == 0)
  }

  lemma EvaluateYields(p: Pipeline, drop: Info -> bool, t: Tree, bonus: int)
    ensures Yields(p, Pruned(drop, t), bonus, SourceKind(bonus), Evaluate(p, drop, t, bonus))
  {
    var raw := p.render(Pruned(drop, t));
    var html := TrimSpace(raw);
    TrimSpaceIs(raw);
    TrimsToNothingIff(raw);
    if html != "" && p.convert(html).Some? {
      var text := p.convert(html).value;
      TrimSpaceIs(text);
      assert Converts(p, Pruned(drop, t), html, text);
    }
  }

  lemma InSomeKid(s: Shape, x: Node)
    requires x in PreOrder(s) && x != s.node
    ensures exists j :: 0 <= j < |s.kids| && x in PreOrder(s.kids[j])
  {
    var j := InPreKids(s.kids, |s.kids|, x);
  }

  /** The shape of the subtree at node `x`. */
  ghost function ShapeOf(s: Shape, x: Node): (sub: Shape)
    requires x in PreOrder(s)
    ensures sub.node == x
    decreases s
  {
    if x == s.node then s
    else
      InSomeKid(s, x);
      var j :| 0 <= j < |s.kids| && x in PreOrder(s.kids[j]);
      ShapeOf(s.kids[j], x)
  }

  lemma {:induction false} ShapeOfLinked(s: Shape, x: Node)
    requires x in PreOrder(s) && Linked(s)
    ensures Linked(ShapeOf(s, x))
    decreases s
  {
    if x != s.node {
      InSomeKid(s, x);
      var j :| 0 <= j < |s.kids| && x in PreOrder(s.kids[j]) && ShapeOf(s, x) == ShapeOf(s.kids[j], x);
      ChildAt(s, j);
      ShapeOfLinked(s.kids[j], x);
    }
  }

  /** Reads a linked tree off as a value, which is what rendering starts from. */
  method ReadTree(node: Node, ghost s: Shape) returns (t: Tree)
    requires s.node == node && Linked(s)
    ensures t == Abs(s)
    decreases s
  {
    var kids: seq<Tree> := [];
    var child := node.FirstChild;
    ghost var n := 0;
    while child != null
      invariant 0 <= n <= |s.kids| && child == At(s.kids, n)
      invariant |kids| == n && forall i :: 0 <= i < n ==> kids[i] == Abs(s).kids[i]
      decreases |s.kids| - n
    {
      ChildAt(s, n);
      var kid := ReadTree(child, s.kids[n]);
      kids := kids + [kid];
      child := child.NextSibling;
      n := n + 1;
    }
    t := Tree(node.info, kids);
    assert kids == Abs(s).kids;
  }

  /** What candidate `c` of the document yields. */
  ghost function Result(p: Pipeline, drop: Info -> bool, s: Shape, c: Candidate): Option<Extract>
    requires c.node in PreOrder(s)
  {
    Evaluate(p, drop, Abs(ShapeOf(s, c.node)), c.sourceBonus)
  }

  /** Copies one candidate, cleans the copy and rates what it renders to. */
  method TryCandidate(p: Pipeline, drop: Info -> bool, c: Candidate, ghost s: Shape) returns (r: Option<Extract>)
    requires c.node in PreOrder(s) && Linked(s) && c.sourceKind == SourceKind(c.sourceBonus)
    ensures r == Result(p, drop, s, c)
  {
    ghost var sub := ShapeOf(s, c.node);
    ShapeOfLinked(s, c.node);
    var cloned, copy := Clone(c.node, sub);
    Clean(drop, cloned, copy);
    AbsCleaned(drop, copy);
    var tree := ReadTree(cloned, Cleaned(drop, copy));
    var rendered := TrimSpace(p.render(tree));
    if rendered == "" {
      return None;
    }
    var converted := p.convert(rendered);
    if converted.None? {
      return None;
    }
    var markdown := TrimSpace(converted.value);
    var quality := p.assess(markdown, c.sourceBonus);
    if quality.textRunes == 0 {
      return None;
    }
    return Some(Extract(markdown, quality, c.sourceKind));
  }

  predicate Better(a: Quality, b: Quality) {
    a.score > b.score || (a.score == b.score && a.textRunes > b.textRunes)
  }

  /** `q` falls behind `b`: no higher score, and on the same score no more text.  What
      came earlier has less of one of the two. */
  ghost predicate FallsBehind(q: Quality, b: Quality, earlier: bool) {
    && q.score <= b.score && (q.score == b.score ==> q.textRunes <= b.textRunes)
    && (earlier ==> q.score != b.score || q.textRunes != b.textRunes)
  }

  /** The result at `k` is the earliest of the best among the results that have text. */
  ghost predicate BestAt(results: seq<Option<Extract>>, b: Extract, k: int) {
    && 0 <= k < |results| && results[k] == Some(b)
    && forall j :: 0 <= j < |results| && results[j].Some? ==> FallsBehind(results[j].value.quality, b.quality, j < k)
  }

  ghost predicate IsBest(results: seq<Option<Extract>>, best: Option<Extract>) {
    match best
    case None => forall j :: 0 <= j < |results| ==> results[j] == None
    case Some(b) => exists k :: BestAt(results, b, k)
  }

  lemma BestStep(results: seq<Option<Extract>>, best: Option<Extract>, r: Option<Extract>)
    requires IsBest(results, best)
    ensures IsBest(results + [r],
              if r.Some? && (best.None? || Better(r.value.quality, best.value.quality)) then r else best)
  {
    var all := results + [r];
    assert all[|results|] == r;
    if r.Some? && (best.None? || Better(r.value.quality, best.value.quality)) {
      assert BestAt(all, r.value, |results|);
    } else if best.Some? {
      var k :| BestAt(results, best.value, k);
      assert BestAt(all, best.value, k);
    }
  }

  lemma BestOfPrefix(results: seq<Option<Extract>>, i: nat, best: Option<Extract>)
    requires i < |results| && IsBest(results[..i], best)
    ensures var r := results[i];
            IsBest(results[..i + 1], if r.Some? && (best.None? || Better(r.value.quality, best.value.quality)) then r else best)
  {
    BestStep(results[..i], best, results[i]);
    assert results[..i + 1] == results[..i] + [results[i]];
  }

  ghost function Results(p: Pipeline, drop: Info -> bool, s: Shape, candidates: seq<Candidate>): seq<Option<Extract>>
    requires forall i :: 0 <= i < |candidates| ==> candidates[i].node in PreOrder(s)
  {
    seq(|candidates|, i requires 0 <= i < |candidates| => Result(p, drop, s, candidates[i]))
  }

  /** Every result is what its candidate yields when its part of the document is cleaned. */
  ghost predicate AllYield(p: Pipeline, drop: Info -> bool, s: Shape, candidates: seq<Candidate>, results: seq<Option<Extract>>)
    requires forall i :: 0 <= i < |candidates| ==> candidates[i].node in PreOrder(s)
  {
    |results| == |candidates| && forall i :: 0 <= i < |candidates| ==>
      var c := candidates[i];
      Yields(p, Pruned(drop, Abs(ShapeOf(s, c.node))), c.sourceBonus, c.sourceKind, results[i])
  }

  lemma ResultsYield(p: Pipeline, drop: Info -> bool, s: Shape, candidates: seq<Candidate>)
    requires forall i :: 0 <= i < |candidates| ==>
               candidates[i].node in PreOrder(s) && candidates[i].sourceKind == SourceKind(candidates[i].sourceBonus)
    ensures AllYield(p, drop, s, candidates, Results(p, drop, s, candidates))
  {
    forall i | 0 <= i < |candidates|
      ensures var c := candidates[i];
              Yields(p, Pruned(drop, Abs(ShapeOf(s, c.node))), c.sourceBonus, c.sourceKind, Results(p, drop, s, candidates)[i])
    {
      EvaluateYields(p, drop, Abs(ShapeOf(s, candidates[i].node)), candidates[i].sourceBonus);
    }
  }

  /** The answer for the results of all candidates. */
  ghost predicate Extracted(results: seq<Option<Extract>>, r: Options.Result<Extract, string>) {
    match r
    case Ok(best) => IsBest(results, Some(best))
    case Err(e) =>
      && IsBest(results, None)
      && e == (if results == [] then "no rendered DOM candidate" else "rendered DOM markdown content is empty")
  }

  /** Every candidate of the document in turn. */
  method BestCandidate(p: Pipeline, drop: Info -> bool, candidates: seq<Candidate>, ghost s: Shape)
      returns (best: Option<Extract>)
    requires Linked(s)
    requires forall i :: 0 <= i < |candidates| ==>
               candidates[i].node in PreOrder(s) && candidates[i].sourceKind == SourceKind(candidates[i].sourceBonus)
    ensures IsBest(Results(p, drop, s, candidates), best)
  {
    best := None;
    ghost var results := Results(p, drop, s, candidates);
    for i := 0 to |candidates|
      invariant IsBest(results[..i], best)
    {
      var extract := TryCandidate(p, drop, candidates[i], s);
      BestOfPrefix(results, i, best);
      if extract.Some? && (best.None? || Better(extract.value.quality, best.value.quality)) {
        best := extract;
      }
    }
    assert results[..|candidates|] == results;
  }

  /** The whole extraction from a parsed document.  Nothing but new nodes is
      modified, so the document stays as it was for every later candidate. */
  method ExtractRenderedDOM(p: Pipeline, m: Matchers, drop: Info -> bool, document: Node, ghost s: Shape)
      returns (r: Options.Result<Extract, string>)
    requires s.node == document && Distinct(s) && Linked(s)
    ensures forall i :: 0 <= i < |Candidates(m, PreOrder(s), 4)| ==> Candidates(m, PreOrder(s), 4)[i].node in PreOrder(s)
    ensures Extracted(Results(p, drop, s, Candidates(m, PreOrder(s), 4)), r)
    ensures AllYield(p, drop, s, Candidates(m, PreOrder(s), 4), Results(p, drop, s, Candidates(m, PreOrder(s), 4)))
    ensures Linked(s)
  {
    var candidates := CollectRenderedDOMCandidates(document, m, s);
    forall i | 0 <= i < |candidates|
      ensures candidates[i].node in PreOrder(s) && candidates[i].sourceKind == SourceKind(candidates[i].sourceBonus)
    {
      CandidateTier(m, PreOrder(s), 4, i);
    }
    ResultsYield(p, drop, s, candidates);
    if |candidates| == 0 {
      return Err("no rendered DOM candidate");
    }
    var best := BestCandidate(p, drop, candidates, s);
    if best.None? {
      return Err("rendered DOM markdown content is empty");
    }
    return Ok(best.value);
  }

  // ----- The page's own candidates

  /** What the page's rules make of a node: a main element, one in the role of main, an
      article or the body, with the bonus and the name of its kind. */
  ghost predicate IsPageCandidate(w: TierWords, info: Info, bonus: int, kind: string) {
    if IsElement(info, w.main) then bonus == 60 && kind == "main"
    else if AttrReads(info, w.role, w.main) then bonus == 50 && kind == "role_main"
    else if IsElement(info, w.article) then bonus == 40 && kind == "article"
    else IsElement(info, w.body) && bonus == 0 && kind == "body"
  }

  predicate TierWordsLower(w: TierWords) {
    LowerWord(w.main) && LowerWord(w.role) && LowerWord(w.article) && LowerWord(w.body)
  }

  lemma ThePageWordsAreLower()
    ensures TierWordsLower(PageWords)
  {
  }

  lemma TierIs(m: Matchers, info: Info, bonus: int, kind: string)
    ensures (if m.main(info) then bonus == 60 && kind == "main"
             else if m.roleMain(info) then bonus == 50 && kind == "role_main"
             else if m.article(info) then bonus == 40 && kind == "article"
             else m.body(info) && bonus == 0 && kind == "body") <==>
            FirstTier(m, info) < 4 && bonus == Bonus(FirstTier(m, info)) && kind == SourceKind(bonus)
  {
  }

  lemma MatchersAre(w: TierWords, info: Info)
    requires TierWordsLower(w)
    ensures MatchersOf(w).main(info) <==> IsElement(info, w.main)
    ensures MatchersOf(w).roleMain(info) <==> AttrReads(info, w.role, w.main)
    ensures MatchersOf(w).article(info) <==> IsElement(info, w.article)
    ensures MatchersOf(w).body(info) <==> IsElement(info, w.body)
  {
    HasTagIff(info, w.main);
    HasAttrValueIff(info, w.role, w.main);
    HasTagIff(info, w.article);
    HasTagIff(info, w.body);
  }

  lemma PageTierIs(w: TierWords, info: Info, bonus: int, kind: string)
    requires TierWordsLower(w)
    ensures IsPageCandidate(w, info, bonus, kind) <==>
            FirstTier(MatchersOf(w), info) < 4 && bonus == Bonus(FirstTier(MatchersOf(w), info)) && kind == SourceKind(bonus)
  {
    MatchersAre(w, info);
    TierIs(MatchersOf(w), info, bonus, kind);
  }

  /** The page's candidates are the nodes its rules name, once each, and those with the
      higher bonus come first, otherwise in the order of the document. */
  lemma PageCandidatesAre(w: TierWords, nodes: seq<Node>)
    requires NoRepeats(nodes) && TierWordsLower(w)
    ensures var c := Candidates(MatchersOf(w), nodes, 4);
            && (forall i :: 0 <= i < |c| ==>
                  c[i].node in nodes && IsPageCandidate(w, c[i].node.info, c[i].sourceBonus, c[i].sourceKind))
            && (forall x, bonus, kind :: x in nodes && IsPageCandidate(w, x.info, bonus, kind) ==> Candidate(x, bonus, kind) in c)
            && (forall i, j :: 0 <= i < j < |c| ==>
                  c[i].node != c[j].node &&
                  (c[i].sourceBonus > c[j].sourceBonus ||
                   (c[i].sourceBonus == c[j].sourceBonus && Precedes(nodes, c[i].node, c[j].node))))
  {
    var c := Candidates(MatchersOf(w), nodes, 4);
    forall i | 0 <= i < |c|
      ensures c[i].node in nodes && IsPageCandidate(w, c[i].node.info, c[i].sourceBonus, c[i].sourceKind)
    {
      CandidateTier(MatchersOf(w), nodes, 4, i);
      PageTierIs(w, c[i].node.info, c[i].sourceBonus, c[i].sourceKind);
    }
    forall x, bonus, kind | x in nodes && IsPageCandidate(w, x.info, bonus, kind)
      ensures Candidate(x, bonus, kind) in c
    {
      PageTierIs(w, x.info, bonus, kind);
      var i := CandidateOf(MatchersOf(w), nodes, 4, x);
      CandidateTier(MatchersOf(w), nodes, 4, i);
      assert c[i] == Candidate(x, bonus, kind);
    }
    forall i, j | 0 <= i < j < |c|
      ensures c[i].node != c[j].node &&
              (c[i].sourceBonus > c[j].sourceBonus ||
               (c[i].sourceBonus == c[j].sourceBonus && Precedes(nodes, c[i].node, c[j].node)))
    {
      CandidatesInOrder(MatchersOf(w), nodes, 4, i, j);
      CandidateTier(MatchersOf(w), nodes, 4, i);
      CandidateTier(MatchersOf(w), nodes, 4, j);
    }
  }

  predicate IsPageNoise(info: Info) {
    ShouldRemoveRenderedDOMNode(PageNoise, info)
  }

  /** The extraction with the page's own tests: what is removed and what counts
      as a candidate. */
  method ExtractRenderedDOMMarkdown(p: Pipeline, document: Node, ghost s: Shape)
      returns (r: Options.Result<Extract, string>)
    requires s.node == document && Distinct(s) && Linked(s)
    ensures forall i :: 0 <= i < |Candidates(MatchersOf(PageWords), PreOrder(s), 4)| ==>
              Candidates(MatchersOf(PageWords), PreOrder(s), 4)[i].node in PreOrder(s)
    ensures Extracted(Results(p, IsPageNoise, s, Candidates(MatchersOf(PageWords), PreOrder(s), 4)), r)
    ensures Linked(s)
  {
    r := ExtractRenderedDOM(p, MatchersOf(PageWords), IsPageNoise, document, s);
  }
}
