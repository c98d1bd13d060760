/** The page's own rules: which nodes are noise, and which may hold the content. */
module PageRules {
  import opened GoStrings
  import opened LinkedTree

  // ----- Tests on a node

  /** The value of the first attribute with this key, or "". */
  function GetAttr(attr: seq<Attribute>, key: string): string {
    if attr == [] then "" else if EqualFold(attr[0].key, key) then attr[0].val else GetAttr(attr[1..], key)
  }

  predicate HasBooleanAttr(info: Info, key: string) {
    exists i :: 0 <= i < |info.attr| && EqualFold(info.attr[i].key, key)
  }

  predicate HasTag(info: Info, tag: string) {
    info.kind.ElementNode? && EqualFold(info.data, tag)
  }

  predicate HasAttrValue(info: Info, key: string, value: string) {
    EqualFold(TrimSpace(GetAttr(info.attr, key)), value)
  }

  /** The words that tell noise: tags, attributes that are set, roles, attributes that
      are true, and tokens in names. */
  datatype Noise = Noise(tags: seq<string>, flags: seq<string>, roles: seq<string>, truths: seq<string>,
                         keys: seq<string>, tokens: seq<string>, role: string, yes: string)

  const PageNoise := Noise(
    ["script", "style", "template", "noscript", "dialog", "nav", "aside", "footer", "iframe"],
    ["hidden", "inert"],
    ["dialog", "alertdialog", "navigation", "complementary", "contentinfo", "banner"],
    ["aria-hidden", "aria-modal"],
    ["id", "class", "aria-label", "data-testid", "data-test", "data-qa"],
    ["cookie", "consent", "gdpr", "onetrust", "modal", "overlay", "popup", "drawer"],
    "role", "true")

  predicate HasNoiseIdentifier(noise: Noise, info: Info) {
    exists k, t :: k in noise.keys && t in noise.tokens && Contains(ToLower(TrimSpace(GetAttr(info.attr, k))), t)
  }

  predicate ShouldRemoveRenderedDOMNode(noise: Noise, info: Info) {
    info.kind.ElementNode? &&
    (|| ToLower(info.data) in noise.tags
     || (exists k :: k in noise.flags && HasBooleanAttr(info, k))
     || (exists r :: r in noise.roles && HasAttrValue(info, noise.role, r))
     || (exists k :: k in noise.truths && HasAttrValue(info, k, noise.yes))
     || HasNoiseIdentifier(noise, info))
  }

  // ----- What the tests mean

  /** The text reads as the word, with case ignored. */
  ghost predicate Reads(s: string, word: string) {
    Spells(FoldsTo, s, word, "")
  }

  /** The attribute at place `i` has this key. */
  ghost predicate KeyAt(attr: seq<Attribute>, key: string, i: int) {
    0 <= i < |attr| && Reads(attr[i].key, key)
  }

  ghost predicate FirstKey(attr: seq<Attribute>, key: string, i: int) {
    KeyAt(attr, key, i) && forall j :: 0 <= j < i ==> !KeyAt(attr, key, j)
  }

  /** The value of the first attribute with this key; empty if there is none. */
  ghost predicate ValueOf(attr: seq<Attribute>, key: string, v: string) {
    (exists i :: FirstKey(attr, key, i) && attr[i].val == v) || (v == "" && forall i :: !KeyAt(attr, key, i))
  }

  ghost predicate TrimmedValue(info: Info, key: string, v: string) {
    exists raw :: ValueOf(info.attr, key, raw) && TrimmedOf(raw, v)
  }

  /** The attribute's value, without white space around it, is this word. */
  ghost predicate AttrReads(info: Info, key: string, word: string) {
    exists v :: TrimmedValue(info, key, v) && Reads(v, word)
  }

  ghost predicate Mentions(s: string, word: string) {
    exists i :: SpelledAt(LowersTo, s, word, i)
  }

  /** The word is somewhere in the attribute's value. */
  ghost predicate AttrMentions(info: Info, key: string, word: string) {
    exists v :: TrimmedValue(info, key, v) && Mentions(v, word)
  }

  ghost predicate IsElement(info: Info, tag: string) {
    info.kind.ElementNode? && Reads(info.data, tag)
  }

  lemma {:induction false} KeysAfter(attr: seq<Attribute>, key: string, i: int)
    requires attr != [] && i >= 0
    ensures KeyAt(attr, key, i + 1) <==> KeyAt(attr[1..], key, i)
  {
  }

  lemma {:induction false} GetAttrIs(attr: seq<Attribute>, key: string)
    requires LowerWord(key)
    ensures ValueOf(attr, key, GetAttr(attr, key))
  {
    if attr != [] {
      EqualFoldIff(attr[0].key, key);
      forall i
        ensures i >= 0 ==> (KeyAt(attr, key, i + 1) <==> KeyAt(attr[1..], key, i))
      {
        if i >= 0 {
          KeysAfter(attr, key, i);
        }
      }
      if KeyAt(attr, key, 0) {
        assert FirstKey(attr, key, 0);
      } else {
        GetAttrIs(attr[1..], key);
        LaterValue(attr, key, GetAttr(attr[1..], key));
      }
    }
  }

  lemma LaterValue(attr: seq<Attribute>, key: string, v: string)
    requires attr != [] && !KeyAt(attr, key, 0) && ValueOf(attr[1..], key, v)
    ensures ValueOf(attr, key, v)
  {
    forall i
      ensures i >= 1 ==> (KeyAt(attr, key, i) <==> KeyAt(attr[1..], key, i - 1))
    {
      if i >= 1 {
        KeysAfter(attr, key, i - 1);
      }
    }
    if i :| FirstKey(attr[1..], key, i) && attr[1..][i].val == v {
      assert FirstKey(attr, key, i + 1);
    }
  }

  /** An attribute list gives a key one value. */
  lemma ValueOfIff(attr: seq<Attribute>, key: string, v: string)
    requires LowerWord(key)
    ensures ValueOf(attr, key, v) <==> v == GetAttr(attr, key)
  {
    GetAttrIs(attr, key);
    OneValue(attr, key, v, GetAttr(attr, key));
  }

  lemma OneValue(attr: seq<Attribute>, key: string, v: string, w: string)
    ensures ValueOf(attr, key, v) && ValueOf(attr, key, w) ==> v == w
  {
    forall i, j | FirstKey(attr, key, i) && FirstKey(attr, key, j)
      ensures i == j
    {
    }
  }

  lemma TrimmedValueIff(info: Info, key: string, v: string)
    requires LowerWord(key)
    ensures TrimmedValue(info, key, v) <==> v == TrimSpace(GetAttr(info.attr, key))
  {
    var own := GetAttr(info.attr, key);
    ValueOfIff(info.attr, key, own);
    TrimSpaceIff(own, v);
    if raw :| ValueOf(info.attr, key, raw) && TrimmedOf(raw, v) {
      ValueOfIff(info.attr, key, raw);
    }
  }

  lemma HasTagIff(info: Info, tag: string)
    requires LowerWord(tag)
    ensures HasTag(info, tag) <==> IsElement(info, tag)
  {
    EqualFoldIff(info.data, tag);
  }

  lemma HasBooleanAttrIff(info: Info, key: string)
    requires LowerWord(key)
    ensures HasBooleanAttr(info, key) <==> exists i :: KeyAt(info.attr, key, i)
  {
    forall i | 0 <= i < |info.attr|
      ensures EqualFold(info.attr[i].key, key) <==> KeyAt(info.attr, key, i)
    {
      EqualFoldIff(info.attr[i].key, key);
    }
  }

  lemma HasAttrValueIff(info: Info, key: string, word: string)
    requires LowerWord(key) && LowerWord(word)
    ensures HasAttrValue(info, key, word) <==> AttrReads(info, key, word)
  {
    var own := TrimSpace(GetAttr(info.attr, key));
    EqualFoldIff(own, word);
    TrimmedValueIff(info, key, own);
    if v :| TrimmedValue(info, key, v) && Reads(v, word) {
      TrimmedValueIff(info, key, v);
    }
  }

  lemma MentionsIff(info: Info, key: string, word: string)
    requires LowerWord(key) && LowerWord(word) && word != ""
    ensures Contains(ToLower(TrimSpace(GetAttr(info.attr, key))), word) <==> AttrMentions(info, key, word)
  {
    var own := TrimSpace(GetAttr(info.attr, key));
    LowerContainsIff(own, word);
    TrimmedValueIff(info, key, own);
    if v :| TrimmedValue(info, key, v) && Mentions(v, word) {
      TrimmedValueIff(info, key, v);
    }
  }

  predicate Words(list: seq<string>) {
    forall i :: 0 <= i < |list| ==> list[i] != "" && LowerWord(list[i])
  }

  predicate NoiseWords(noise: Noise) {
    && Words(noise.tags) && Words(noise.flags) && Words(noise.roles) && Words(noise.truths)
    && Words(noise.keys) && Words(noise.tokens) && Words([noise.role, noise.yes])
  }

  lemma TagsIff(info: Info, tags: seq<string>)
    requires Words(tags)
    ensures ToLower(info.data) in tags <==> exists t :: t in tags && Spells(LowersTo, info.data, t, "")
  {
    forall t | t in tags
      ensures ToLower(info.data) == t <==> Spells(LowersTo, info.data, t, "")
    {
      ToLowerIff(info.data, t);
    }
  }

  /** Noise are the elements with one of the removed tags, those with one of the flags,
      those with a removed role, those where one of the truths is declared, and those one
      of whose names mentions one of the tokens. */
  lemma ShouldRemoveIff(noise: Noise, info: Info)
    requires NoiseWords(noise)
    ensures ShouldRemoveRenderedDOMNode(noise, info) <==>
            && info.kind.ElementNode?
            && (|| (exists t :: t in noise.tags && Spells(LowersTo, info.data, t, ""))
                || (exists k, i :: k in noise.flags && KeyAt(info.attr, k, i))
                || (exists r :: r in noise.roles && AttrReads(info, noise.role, r))
                || (exists k :: k in noise.truths && AttrReads(info, k, noise.yes))
                || (exists k, t :: k in noise.keys && t in noise.tokens && AttrMentions(info, k, t)))
  {
    var own := [noise.role, noise.yes];
    assert own[0] in own && own[1] in own;
    TagsIff(info, noise.tags);
    forall k | k in noise.flags
      ensures HasBooleanAttr(info, k) <==> exists i :: KeyAt(info.attr, k, i)
    {
      HasBooleanAttrIff(info, k);
    }
    forall r | r in noise.roles
      ensures HasAttrValue(info, noise.role, r) <==> AttrReads(info, noise.role, r)
    {
      HasAttrValueIff(info, noise.role, r);
    }
    forall k | k in noise.truths
      ensures HasAttrValue(info, k, noise.yes) <==> AttrReads(info, k, noise.yes)
    {
      HasAttrValueIff(info, k, noise.yes);
    }
    forall k, t | k in noise.keys && t in noise.tokens
      ensures Contains(ToLower(TrimSpace(GetAttr(info.attr, k))), t) <==> AttrMentions(info, k, t)
    {
      MentionsIff(info, k, t);
    }
  }

  lemma TheTags()
    ensures Words(PageNoise.tags)
  {
  }

  lemma TheRoles()
    ensures Words(PageNoise.roles)
  {
  }

  lemma TheKeys()
    ensures Words(PageNoise.keys)
  {
  }

  lemma TheTokens()
    ensures Words(PageNoise.tokens)
  {
  }

  lemma TheAttributes()
    ensures Words(PageNoise.flags) && Words(PageNoise.truths)
  {
  }

  lemma ThePageNoiseIsWords()
    ensures NoiseWords(PageNoise)
  {
    TheTags();
    TheRoles();
    TheKeys();
    TheTokens();
    TheAttributes();
  }
}
