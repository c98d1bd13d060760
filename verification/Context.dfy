/** The bounded conversation: what `pruneMessages` keeps of the history, and why
    that fits the model context. */
module Context {
  import opened Options

  datatype FunctionCall = FunctionCall(name: string, arguments: string)

  datatype ToolCall = ToolCall(id: string, kind: string, function_: FunctionCall)

  /** The `role` string of a message; `Other` stands for any string the code does
      not name. */
  datatype Role = System | User | Assistant | ToolRole | Other(text: string)

  datatype Message = Message(role: Role, content: string, toolCalls: seq<ToolCall>, toolCallID: string, name: string)

  /** A tool as the model sees it; `parameters` are the keys of its schema. */
  datatype Tool = Tool(name: string, description: string, parameters: set<string>)

  const ContextTokens := 4096
  const ReservedTokens := 256
  const MaxToolResultBytes := 4096

  /** The marker appended to a clamped text: an ellipsis in UTF-8 and a word. */
  const TruncationMark := "\U{E2}\U{80}\U{A6}[truncated]"

  const EmptyConversation := "conversation is empty"
  const NoUserRequest := "conversation has no user request"
  const DoesNotFit := "the request does not fit into the model context"

  function EstimateTokens(text: string): nat {
    (|text| + 3) / 4
  }

  function ClampText(text: string, limit: nat): string {
    if |text| <= limit then text else text[..limit] + TruncationMark
  }

  // ----- Token counts

  ghost function CallsCost(calls: seq<ToolCall>, n: nat): nat
    requires n <= |calls|
  {
    if n == 0 then 0
    else CallsCost(calls, n - 1) + EstimateTokens(calls[n - 1].function_.name) + EstimateTokens(calls[n - 1].function_.arguments) + 8
  }

  ghost function Cost(m: Message): nat {
    EstimateTokens(m.content) + 8 + CallsCost(m.toolCalls, |m.toolCalls|)
  }

  method MessageTokens(m: Message) returns (total: nat)
    ensures total == Cost(m)
  {
    total := EstimateTokens(m.content) + 8;
    for i := 0 to |m.toolCalls|
      invariant total == EstimateTokens(m.content) + 8 + CallsCost(m.toolCalls, i)
    {
      var call := m.toolCalls[i];
      total := total + (EstimateTokens(call.function_.name) + EstimateTokens(call.function_.arguments) + 8);
    }
  }

  /** The cost of a set of schema keys, in whatever order they are visited. */
  ghost function KeysCost(keys: set<string>): nat {
    if keys == {} then 0
    else
      var k :| k in keys;
      EstimateTokens(k) + 4 + KeysCost(keys - {k})
  }

  lemma {:induction false} KeysCostAnyOrder(keys: set<string>, k: string)
    requires k in keys
    ensures KeysCost(keys) == EstimateTokens(k) + 4 + KeysCost(keys - {k})
    decreases keys
  {
    var first :| first in keys && KeysCost(keys) == EstimateTokens(first) + 4 + KeysCost(keys - {first});
    if first != k {
      KeysCostAnyOrder(keys - {first}, k);
      KeysCostAnyOrder(keys - {k}, first);
      assert keys - {first} - {k} == keys - {k} - {first};
    }
  }

  ghost function ToolsCost(tools: seq<Tool>, n: nat): nat
    requires n <= |tools|
  {
    if n == 0 then 0
    else
      var t := tools[n - 1];
      ToolsCost(tools, n - 1) + EstimateTokens(t.name) + EstimateTokens(t.description) + 16 + KeysCost(t.parameters) + 48
  }

  method ToolsTokens(tools: seq<Tool>) returns (total: nat)
    ensures total == ToolsCost(tools, |tools|)
  {
    total := 0;
    for i := 0 to |tools|
      invariant total == ToolsCost(tools, i)
    {
      var tool := tools[i];
      total := total + (EstimateTokens(tool.name) + EstimateTokens(tool.description) + 16);
      ghost var base := total;
      var keys := tool.parameters;
      while keys != {}
        invariant keys <= tool.parameters
        invariant total + KeysCost(keys) == base + KeysCost(tool.parameters)
      {
        var key :| key in keys;
        KeysCostAnyOrder(keys, key);
        total := total + (EstimateTokens(key) + 4);
        keys := keys - {key};
      }
      total := total + 48;
    }
  }

  /** The cost of the messages from position `i` on. */
  ghost function CostFrom(cost: Message -> nat, ms: seq<Message>, i: nat): nat
    requires i <= |ms|
    decreases |ms| - i
  {
    if i == |ms| then 0 else cost(ms[i]) + CostFrom(cost, ms, i + 1)
  }

  // ----- The specification of pruning

  /** The index of the last user message among the first `n`; -1 if none. */
  ghost function LastUser(ms: seq<Message>, n: nat): (u: int)
    requires n <= |ms|
    ensures -1 <= u < n
  {
    if n == 0 then -1 else if ms[n - 1].role.User? then n - 1 else LastUser(ms, n - 1)
  }

  lemma {:induction false} LastUserIs(ms: seq<Message>, n: nat)
    requires n <= |ms|
    ensures LastUser(ms, n) >= 0 ==> ms[LastUser(ms, n)].role.User?
    ensures forall j :: LastUser(ms, n) < j < n ==> !ms[j].role.User?
  {
    if n > 0 {
      LastUserIs(ms, n - 1);
    }
  }

  function Clamped(m: Message): Message {
    if m.role.ToolRole? then m.(content := ClampText(m.content, MaxToolResultBytes)) else m
  }

  function ClampAll(ms: seq<Message>): (r: seq<Message>)
    ensures |r| == |ms|
  {
    seq(|ms|, i requires 0 <= i < |ms| => Clamped(ms[i]))
  }

  /** A position where no tool result is torn from its call: the start, the end,
      or any message that is not a tool result. */
  predicate Boundary(tail: seq<Message>, i: nat) {
    i <= |tail| && (i == 0 || i == |tail| || !tail[i].role.ToolRole?)
  }

  /** The first boundary at or after `i` from which the rest of `tail` fits. */
  ghost function FirstFit(cost: Message -> nat, tail: seq<Message>, budget: nat, i: nat): (cut: nat)
    requires i <= |tail|
    ensures i <= cut <= |tail|
    decreases |tail| - i
  {
    if i == |tail| || (Boundary(tail, i) && CostFrom(cost, tail, i) <= budget) then i else FirstFit(cost, tail, budget, i + 1)
  }

  lemma {:induction false} FirstFitIs(cost: Message -> nat, tail: seq<Message>, budget: nat, i: nat)
    requires i <= |tail|
    ensures Boundary(tail, FirstFit(cost, tail, budget, i)) && CostFrom(cost, tail, FirstFit(cost, tail, budget, i)) <= budget
    ensures forall j :: i <= j < FirstFit(cost, tail, budget, i) && Boundary(tail, j) ==> CostFrom(cost, tail, j) > budget
    decreases |tail| - i
  {
    if i < |tail| && !(Boundary(tail, i) && CostFrom(cost, tail, i) <= budget) {
      FirstFitIs(cost, tail, budget, i + 1);
    }
  }

  /** The longest suffix of whole exchanges that fits the budget. */
  ghost function Fitting(cost: Message -> nat, tail: seq<Message>, budget: nat): seq<Message> {
    tail[FirstFit(cost, tail, budget, 0)..]
  }

  /** The position of the current request; -1 if there is none. */
  ghost function Request(ms: seq<Message>): int {
    LastUser(ms, |ms|)
  }

  /** The activity after the current request. */
  ghost function Activity(ms: seq<Message>): seq<Message>
    requires Request(ms) >= 0
  {
    ClampAll(ms[Request(ms) + 1..])
  }

  /** The tokens left for the activity. */
  ghost function Room(cost: Message -> nat, ms: seq<Message>, toolsCost: nat): int
    requires Request(ms) >= 0
  {
    ContextTokens - ReservedTokens - toolsCost - cost(ms[0]) - cost(ms[Request(ms)])
  }

  /** There is a request, and room for activity beside it: then pruning succeeds. */
  ghost predicate CanPrune(cost: Message -> nat, ms: seq<Message>, toolsCost: nat) {
    Request(ms) >= 0 && Room(cost, ms, toolsCost) > 0
  }

  /** What pruning answers: the system message, the last user message, and what
      fits of the activity after it. */
  ghost function Prune(cost: Message -> nat, ms: seq<Message>, toolsCost: nat): Result<seq<Message>, string> {
    if ms == [] then Err(EmptyConversation)
    else if Request(ms) < 0 then Err(NoUserRequest)
    else if Room(cost, ms, toolsCost) <= 0 then Err(DoesNotFit)
    else Ok([ms[0], ms[Request(ms)]] + Fitting(cost, Activity(ms), Room(cost, ms, toolsCost)))
  }

  // ----- What is kept, and what it costs

  /** What is left of a tool result's text: all of it up to 4096 bytes, otherwise those
      and the marker. */
  ghost predicate CutText(text: string, left: string) {
    if |text| <= 4096 then left == text
    else |left| == 4096 + |TruncationMark| && left[..4096] == text[..4096] && left[4096..] == TruncationMark
  }

  /** The message `m` is kept as `k`: only the text of tool results is ever cut. */
  ghost predicate KeptAs(m: Message, k: Message) {
    && k.role == m.role && k.toolCalls == m.toolCalls && k.toolCallID == m.toolCallID && k.name == m.name
    && (if m.role.ToolRole? then CutText(m.content, k.content) else k.content == m.content)
  }

  /** `kept` are the first message, the last user message `u`, and the messages from
      `cut` on, which lies after it and between exchanges. */
  ghost predicate KeptFrom(ms: seq<Message>, kept: seq<Message>, u: nat, cut: nat) {
    && u < cut <= |ms| && ms[u].role.User? && (forall j :: u < j < |ms| ==> !ms[j].role.User?)
    && (cut == u + 1 || cut == |ms| || !ms[cut].role.ToolRole?)
    && |kept| == 2 + |ms| - cut && kept[0] == ms[0] && kept[1] == ms[u]
    && forall j :: cut <= j < |ms| ==> KeptAs(ms[j], kept[2 + j - cut])
  }

  ghost predicate KeptOf(ms: seq<Message>, kept: seq<Message>) {
    exists u, cut :: KeptFrom(ms, kept, u, cut)
  }

  lemma ClampedIs(m: Message)
    ensures KeptAs(m, Clamped(m))
  {
  }

  /** The messages, the tools and the reserved answer fit the context of 4096 tokens. */
  ghost predicate WithinContext(cost: Message -> nat, ms: seq<Message>, toolsCost: nat) {
    CostFrom(cost, ms, 0) + toolsCost + 256 <= 4096
  }

  lemma PruneKeeps(cost: Message -> nat, ms: seq<Message>, toolsCost: nat)
    requires CanPrune(cost, ms, toolsCost)
    ensures KeptOf(ms, Prune(cost, ms, toolsCost).value)
  {
    var u, tail, budget := Request(ms), Activity(ms), Room(cost, ms, toolsCost);
    var i, kept := FirstFit(cost, tail, budget, 0), Prune(cost, ms, toolsCost).value;
    LastUserIs(ms, |ms|);
    FirstFitIs(cost, tail, budget, 0);
    forall j | u + 1 + i <= j < |ms|
      ensures KeptAs(ms[j], kept[2 + j - (u + 1 + i)])
    {
      assert kept[2 + j - (u + 1 + i)] == tail[i..][j - (u + 1 + i)] == Clamped(ms[j]);
      ClampedIs(ms[j]);
    }
    assert i < |tail| ==> tail[i] == Clamped(ms[u + 1 + i]);
    assert KeptFrom(ms, kept, u, u + 1 + i);
  }

  /** A text counts as one token for each four bytes begun. */
  lemma EstimateIs(text: string, n: nat)
    ensures EstimateTokens(text) == n <==> 4 * n - 4 < |text| <= 4 * n
  {
  }

  lemma {:induction false} CallsCostOfPrefix(calls: seq<ToolCall>, more: seq<ToolCall>, n: nat)
    requires n <= |calls|
    ensures CallsCost(calls + more, n) == CallsCost(calls, n)
  {
    if n > 0 {
      CallsCostOfPrefix(calls, more, n - 1);
    }
  }

  /** A message costs 8 tokens beside its text, and each call 8 beside its texts. */
  lemma MessageCosts(m: Message, calls: seq<ToolCall>, call: ToolCall)
    ensures Cost(m.(toolCalls := [])) == EstimateTokens(m.content) + 8
    ensures Cost(m.(toolCalls := calls + [call])) == Cost(m.(toolCalls := calls)) +
              EstimateTokens(call.function_.name) + EstimateTokens(call.function_.arguments) + 8
  {
    CallsCostOfPrefix(calls, [call], |calls|);
  }

  lemma {:induction false} ToolsCostOfPrefix(tools: seq<Tool>, more: seq<Tool>, n: nat)
    requires n <= |tools|
    ensures ToolsCost(tools + more, n) == ToolsCost(tools, n)
  {
    if n > 0 {
      ToolsCostOfPrefix(tools, more, n - 1);
    }
  }

  /** A tool costs 64 tokens beside its texts, and each key of its schema 4 beside its
      name. */
  lemma ToolCosts(tools: seq<Tool>, tool: Tool, key: string)
    requires key !in tool.parameters
    ensures ToolsCost([], 0) == 0
    ensures ToolsCost(tools + [tool.(parameters := {})], |tools| + 1) ==
            ToolsCost(tools, |tools|) + EstimateTokens(tool.name) + EstimateTokens(tool.description) + 64
    ensures ToolsCost(tools + [tool.(parameters := tool.parameters + {key})], |tools| + 1) ==
            ToolsCost(tools + [tool], |tools| + 1) + EstimateTokens(key) + 4
  {
    ToolsCostOfPrefix(tools, [tool], |tools|);
    ToolsCostOfPrefix(tools, [tool.(parameters := {})], |tools|);
    ToolsCostOfPrefix(tools, [tool.(parameters := tool.parameters + {key})], |tools|);
    KeysCostAnyOrder(tool.parameters + {key}, key);
    assert tool.parameters + {key} - {key} == tool.parameters;
  }

  // ----- The code

  /** `rest` is what follows the first exchange of `tail`. */
  ghost predicate WithoutOldest(tail: seq<Message>, rest: seq<Message>) {
    && |rest| < |tail| && rest == tail[|tail| - |rest|..] && Boundary(tail, |tail| - |rest|)
    && forall j :: 0 < j < |tail| - |rest| ==> !Boundary(tail, j)
  }

  method DropOldestExchange(tail: seq<Message>) returns (rest: seq<Message>)
    ensures tail == [] ==> rest == []
    ensures tail != [] ==> WithoutOldest(tail, rest)
  {
    if |tail| == 0 {
      return tail;
    }
    var index := 1;
    while index < |tail| && tail[index].role.ToolRole?
      invariant 1 <= index <= |tail|
      invariant forall j :: 0 < j < index ==> tail[j].role.ToolRole?
    {
      index := index + 1;
    }
    return tail[index..];
  }

  lemma {:induction false} CostOfSuffix(cost: Message -> nat, ms: seq<Message>, i: nat, j: nat)
    requires i <= j <= |ms|
    ensures CostFrom(cost, ms[i..], j - i) == CostFrom(cost, ms, j)
    decreases |ms| - j
  {
    if j < |ms| {
      CostOfSuffix(cost, ms, i, j + 1);
    }
  }

  method TailTokens(tail: seq<Message>) returns (used: nat)
    ensures used == CostFrom(Cost, tail, 0)
  {
    used := 0;
    for i := 0 to |tail|
      invariant used + CostFrom(Cost, tail, i) == CostFrom(Cost, tail, 0)
    {
      var tokens := MessageTokens(tail[i]);
      used := used + tokens;
    }
  }

  /** `tail` is a suffix of `whole` that starts no later than what fits. */
  ghost predicate Trimmed(cost: Message -> nat, whole: seq<Message>, budget: nat, tail: seq<Message>) {
    |tail| <= |whole| &&
    var cut := |whole| - |tail|;
    && tail == whole[cut..] && Boundary(whole, cut)
    && FirstFit(cost, whole, budget, cut) == FirstFit(cost, whole, budget, 0)
  }

  /** The loop that drops the oldest exchanges until the rest fits. */
  method DropUntilFits(whole: seq<Message>, budget: nat) returns (r: Result<seq<Message>, string>)
    ensures r == Ok(Fitting(Cost, whole, budget))
  {
    var tail := whole;
    var used := TailTokens(tail);
    while used > budget
      invariant Trimmed(Cost, whole, budget, tail)
      invariant used == CostFrom(Cost, tail, 0)
      decreases |tail|
    {
      if |tail| == 0 {
        return Err(DoesNotFit);
      }
      ghost var before := tail;
      tail := DropOldestExchange(tail);
      SkipTo(Cost, whole, budget, before, tail);
      used := TailTokens(tail);
    }
    TrimmedFits(Cost, whole, budget, tail);
    return Ok(tail);
  }

  lemma TrimmedFits(cost: Message -> nat, whole: seq<Message>, budget: nat, tail: seq<Message>)
    requires Trimmed(cost, whole, budget, tail) && CostFrom(cost, tail, 0) <= budget
    ensures tail == Fitting(cost, whole, budget)
  {
    CostOfSuffix(cost, whole, |whole| - |tail|, |whole| - |tail|);
  }

  /** The exchange dropped next has no boundary inside. */
  lemma SkipTo(cost: Message -> nat, whole: seq<Message>, budget: nat, tail: seq<Message>, rest: seq<Message>)
    requires Trimmed(cost, whole, budget, tail) && CostFrom(cost, tail, 0) > budget && WithoutOldest(tail, rest)
    ensures Trimmed(cost, whole, budget, rest)
  {
    var cut, dropped := |whole| - |tail|, |tail| - |rest|;
    CostOfSuffix(cost, whole, cut, cut);
    forall j | cut < j < cut + dropped
      ensures !Boundary(whole, j)
    {
      assert !Boundary(tail, j - cut);
    }
    FirstFitFrom(cost, whole, budget, cut, cut + dropped);
  }

  /** Positions that do not fit or are no boundaries can be skipped. */
  lemma {:induction false} FirstFitFrom(cost: Message -> nat, tail: seq<Message>, budget: nat, i: nat, k: nat)
    requires i <= k <= |tail|
    requires forall j :: i <= j < k && Boundary(tail, j) ==> CostFrom(cost, tail, j) > budget
    ensures FirstFit(cost, tail, budget, i) == FirstFit(cost, tail, budget, k)
    decreases k - i
  {
    if i < k {
      FirstFitFrom(cost, tail, budget, i + 1, k);
    }
  }

  /** The search for the current request, from the end. */
  method FindLastUser(messages: seq<Message>) returns (userIndex: int)
    ensures userIndex == LastUser(messages, |messages|)
  {
    userIndex := |messages| - 1;
    while userIndex >= 0 && !messages[userIndex].role.User?
      invariant -1 <= userIndex < |messages|
      invariant LastUser(messages, userIndex + 1) == LastUser(messages, |messages|)
    {
      userIndex := userIndex - 1;
    }
  }

  /** The activity after the request, with oversized tool results clamped. */
  method ActivityAfter(messages: seq<Message>, userIndex: nat) returns (tail: seq<Message>)
    requires userIndex < |messages|
    ensures tail == ClampAll(messages[userIndex + 1..])
  {
    tail := [];
    for k := userIndex + 1 to |messages|
      invariant |tail| == k - userIndex - 1
      invariant forall i :: 0 <= i < |tail| ==> tail[i] == Clamped(messages[userIndex + 1 + i])
    {
      tail := tail + [Clamped(messages[k])];
    }
  }

  method PruneMessages(messages: seq<Message>, tools: seq<Tool>) returns (r: Result<seq<Message>, string>)
    ensures r == Prune(Cost, messages, ToolsCost(tools, |tools|))
  {
    if |messages| == 0 {
      return Err(EmptyConversation);
    }
    var system := messages[0];
    var userIndex := FindLastUser(messages);
    if userIndex < 0 {
      return Err(NoUserRequest);
    }
    var user := messages[userIndex];
    var tail := ActivityAfter(messages, userIndex);
    var toolsTokens := ToolsTokens(tools);
    var systemTokens := MessageTokens(system);
    var userTokens := MessageTokens(user);
    var budget := ContextTokens - ReservedTokens - toolsTokens - systemTokens - userTokens;
    if budget <= 0 {
      return Err(DoesNotFit);
    }
    var fitted := DropUntilFits(tail, budget);
    if fitted.Err? {
      return fitted;
    }
    return Ok([system, user] + fitted.value);
  }

  // ----- What pruning guarantees

  lemma {:induction false} CostJoin(cost: Message -> nat, a: seq<Message>, b: seq<Message>, i: nat)
    requires i <= |a|
    ensures CostFrom(cost, a + b, i) == CostFrom(cost, a, i) + CostFrom(cost, b, 0)
    decreases |a| - i
  {
    if i < |a| {
      CostJoin(cost, a, b, i + 1);
    } else {
      assert (a + b)[i..] == b;
      CostOfSuffix(cost, a + b, i, i);
    }
  }

  lemma CostOfTwo(cost: Message -> nat, system: Message, user: Message, rest: seq<Message>)
    ensures CostFrom(cost, [system, user] + rest, 0) == cost(system) + cost(user) + CostFrom(cost, rest, 0)
  {
    var all := [system, user] + rest;
    assert all[2..] == rest;
    CostOfSuffix(cost, all, 2, 2);
    assert CostFrom(cost, all, 0) == cost(all[0]) + CostFrom(cost, all, 1);
    assert CostFrom(cost, all, 1) == cost(all[1]) + CostFrom(cost, all, 2);
  }

  /** The pruned conversation, the tools and the reserved answer fit the context. */
  lemma PrunedFits(cost: Message -> nat, ms: seq<Message>, toolsCost: nat)
    requires CanPrune(cost, ms, toolsCost)
    ensures CostFrom(cost, Prune(cost, ms, toolsCost).value, 0) + toolsCost + ReservedTokens <= ContextTokens
  {
    var tail, budget := Activity(ms), Room(cost, ms, toolsCost);
    var cut := FirstFit(cost, tail, budget, 0);
    FirstFitIs(cost, tail, budget, 0);
    CostOfTwo(cost, ms[0], ms[Request(ms)], tail[cut..]);
    CostOfSuffix(cost, tail, cut, cut);
  }

  /** A pruned conversation is what may be kept of the original, and fits. */
  lemma PruneGuarantees(cost: Message -> nat, ms: seq<Message>, toolsCost: nat)
    requires Prune(cost, ms, toolsCost).Ok?
    ensures KeptOf(ms, Prune(cost, ms, toolsCost).value)
    ensures WithinContext(cost, Prune(cost, ms, toolsCost).value, toolsCost)
  {
    PruneKeeps(cost, ms, toolsCost);
    PrunedFits(cost, ms, toolsCost);
  }

  /** Of all ways to cut the activity between exchanges, pruning keeps the longest
      that fits. */
  lemma PrunedIsLongest(cost: Message -> nat, ms: seq<Message>, toolsCost: nat, cut: nat)
    requires CanPrune(cost, ms, toolsCost) && Boundary(Activity(ms), cut)
    requires WithinContext(cost, [ms[0], ms[Request(ms)]] + Activity(ms)[cut..], toolsCost)
    ensures |Activity(ms)[cut..]| + 2 <= |Prune(cost, ms, toolsCost).value|
  {
    CostOfTwo(cost, ms[0], ms[Request(ms)], Activity(ms)[cut..]);
    CostOfSuffix(cost, Activity(ms), cut, cut);
    FirstFitIs(cost, Activity(ms), Room(cost, ms, toolsCost), 0);
  }

  /** Pruning fails exactly on an empty conversation, on one without a user
      message, and when the fixed part leaves no budget. */
  lemma PruneFailsIff(cost: Message -> nat, ms: seq<Message>, toolsCost: nat)
    ensures Prune(cost, ms, toolsCost).Ok? <==> CanPrune(cost, ms, toolsCost)
    ensures Prune(cost, ms, toolsCost).Err? <==>
              || (forall m :: m in ms ==> !m.role.User?)
              || exists u :: 0 <= u < |ms| && ms[u].role.User? && (forall j :: u < j < |ms| ==> !ms[j].role.User?)
                   && toolsCost + cost(ms[0]) + cost(ms[u]) + 256 >= 4096
  {
    if ms != [] {
      var u := LastUser(ms, |ms|);
      LastUserIs(ms, |ms|);
      if u >= 0 {
        assert ms[u] in ms;
      }
    }
  }

  /** Clamping a clamped text changes nothing, although the marker makes it longer
      than the limit. */
  lemma ClampTwice(ms: seq<Message>)
    ensures ClampAll(ClampAll(ms)) == ClampAll(ms)
  {
    forall i | 0 <= i < |ms|
      ensures Clamped(Clamped(ms[i])) == Clamped(ms[i])
    {
      var text := ms[i].content;
      if ms[i].role.ToolRole? && |text| > MaxToolResultBytes {
        assert Clamped(ms[i]).content[..MaxToolResultBytes] == text[..MaxToolResultBytes];
      }
    }
  }

  ghost predicate NoUser(ms: seq<Message>) {
    forall i :: 0 <= i < |ms| ==> !ms[i].role.User?
  }

  lemma {:induction false} LastUserBefore(ms: seq<Message>, u: nat, n: nat)
    requires u < n <= |ms| && ms[u].role.User?
    requires forall j :: u < j < n ==> !ms[j].role.User?
    ensures LastUser(ms, n) == u
  {
    if u < n - 1 {
      LastUserBefore(ms, u, n - 1);
    }
  }

  lemma {:induction false} FirstFitShift(cost: Message -> nat, full: seq<Message>, budget: nat, i: nat, k: nat)
    requires i <= k <= |full| && (i == k ==> Boundary(full, i))
    ensures FirstFit(cost, full, budget, k) == i + FirstFit(cost, full[i..], budget, k - i)
    decreases |full| - k
  {
    CostOfSuffix(cost, full, i, k);
    assert Boundary(full, k) <==> Boundary(full[i..], k - i);
    if k < |full| {
      FirstFitShift(cost, full, budget, i, k + 1);
    }
  }

  /** The activity had exchanges of which nothing fits any more, and what comes next
      starts with a tool result and fits: the result of a call that was dropped. */
  ghost predicate Orphaned(cost: Message -> nat, tail: seq<Message>, e: seq<Message>, budget: nat) {
    && tail != [] && Fitting(cost, tail, budget) == []
    && e != [] && e[0].role.ToolRole? && CostFrom(cost, e, 0) <= budget
  }

  lemma StillTooLong(cost: Message -> nat, tail: seq<Message>, e: seq<Message>, budget: nat, cut: nat)
    requires cut == FirstFit(cost, tail, budget, 0)
    ensures forall j :: 0 <= j < cut && Boundary(tail + e, j) ==> CostFrom(cost, tail + e, j) > budget
  {
    FirstFitIs(cost, tail, budget, 0);
    forall j | 0 <= j < cut && Boundary(tail + e, j)
      ensures CostFrom(cost, tail + e, j) > budget
    {
      CostJoin(cost, tail, e, j);
      assert Boundary(tail, j);
    }
  }

  lemma StillBoundary(tail: seq<Message>, e: seq<Message>, cut: nat)
    requires Boundary(tail, cut) && (cut < |tail| || cut == 0 || e == [] || !e[0].role.ToolRole?)
    ensures Boundary(tail + e, cut)
  {
  }

  lemma SuffixOfJoin<T>(a: seq<T>, b: seq<T>, i: nat)
    requires i <= |a|
    ensures (a + b)[i..] == a[i..] + b
  {
  }

  lemma NothingBefore(cost: Message -> nat, tail: seq<Message>, e: seq<Message>, budget: nat, cut: nat)
    requires cut == FirstFit(cost, tail, budget, 0)
    requires cut < |tail| || cut == 0 || e == [] || !e[0].role.ToolRole?
    ensures Fitting(cost, tail[cut..] + e, budget) == Fitting(cost, tail + e, budget)
  {
    var full := tail + e;
    FirstFitIs(cost, tail, budget, 0);
    StillBoundary(tail, e, cut);
    StillTooLong(cost, tail, e, budget, cut);
    FirstFitFrom(cost, full, budget, 0, cut);
    FirstFitShift(cost, full, budget, cut, cut);
    SuffixOfJoin(tail, e, cut);
  }

  /** When all of `tail` is dropped, what fits of the rest starts after its first
      tool result. */
  lemma AllDropped(cost: Message -> nat, tail: seq<Message>, e: seq<Message>, budget: nat)
    requires tail != [] && Fitting(cost, tail, budget) == [] && e != [] && e[0].role.ToolRole?
    ensures FirstFit(cost, tail + e, budget, 0) == |tail| + FirstFit(cost, e, budget, 1)
  {
    var full := tail + e;
    StillTooLong(cost, tail, e, budget, |tail|);
    assert !Boundary(full, |tail|);
    FirstFitFrom(cost, full, budget, 0, |tail| + 1);
    FirstFitShift(cost, full, budget, |tail|, |tail| + 1);
    assert full[|tail|..] == e;
  }

  /** What fits of a longer tail can be found from what fitted before, unless a call
      was dropped whose result is still to come. */
  lemma FittingGrows(cost: Message -> nat, tail: seq<Message>, e: seq<Message>, budget: nat)
    ensures Fitting(cost, Fitting(cost, tail, budget) + e, budget) == Fitting(cost, tail + e, budget)
            <==> !Orphaned(cost, tail, e, budget)
  {
    var cut := FirstFit(cost, tail, budget, 0);
    if cut < |tail| || cut == 0 || e == [] || !e[0].role.ToolRole? {
      NothingBefore(cost, tail, e, budget, cut);
    } else {
      AllDropped(cost, tail, e, budget);
      assert Fitting(cost, tail, budget) + e == e;
      assert (tail + e)[|tail| + FirstFit(cost, e, budget, 1)..] == e[FirstFit(cost, e, budget, 1)..];
    }
  }

  lemma ClampJoin(a: seq<Message>, b: seq<Message>)
    ensures ClampAll(a + b) == ClampAll(a) + ClampAll(b)
  {
  }

  /** New activity changes neither the request nor the room for activity. */
  lemma RequestStays(cost: Message -> nat, ms: seq<Message>, e: seq<Message>, toolsCost: nat)
    requires NoUser(e) && Request(ms) >= 0
    ensures Request(ms + e) == Request(ms)
    ensures Activity(ms + e) == Activity(ms) + ClampAll(e)
    ensures Room(cost, ms + e, toolsCost) == Room(cost, ms, toolsCost)
  {
    var u, all := Request(ms), ms + e;
    LastUserIs(ms, |ms|);
    forall j | u < j < |all|
      ensures !all[j].role.User?
    {
      assert all[j] == if j < |ms| then ms[j] else e[j - |ms|];
    }
    LastUserBefore(all, u, |all|);
    assert all[u + 1..] == ms[u + 1..] + e;
    ClampJoin(ms[u + 1..], e);
  }

  lemma {:induction false} SuffixOfClamped(tail: seq<Message>, cut: nat)
    requires cut <= |tail| && ClampAll(tail) == tail
    ensures ClampAll(tail[cut..]) == tail[cut..]
  {
    forall i | cut <= i < |tail|
      ensures Clamped(tail[i]) == tail[i]
    {
      assert ClampAll(tail)[i] == tail[i];
    }
  }

  lemma NoRequestIff(ms: seq<Message>)
    ensures Request(ms) < 0 <==> NoUser(ms)
  {
    LastUserIs(ms, |ms|);
  }

  lemma ActivityHasNoUser(ms: seq<Message>)
    requires Request(ms) >= 0
    ensures NoUser(Activity(ms)) && ClampAll(Activity(ms)) == Activity(ms)
  {
    var rest := ms[Request(ms) + 1..];
    LastUserIs(ms, |ms|);
    ClampTwice(rest);
    forall j | 0 <= j < |rest|
      ensures !ClampAll(rest)[j].role.User?
    {
      assert rest[j] == ms[Request(ms) + 1 + j];
    }
  }

  lemma RequestOfTwo(system: Message, user: Message, rest: seq<Message>)
    requires user.role.User? && NoUser(rest)
    ensures Request([system, user] + rest) == 1 && Activity([system, user] + rest) == ClampAll(rest)
  {
    var all := [system, user] + rest;
    assert all[2..] == rest;
    forall j | 1 < j < |all|
      ensures !all[j].role.User?
    {
      assert all[j] == rest[j - 2];
    }
    LastUserBefore(all, 1, |all|);
  }

  lemma RequestIsUser(ms: seq<Message>)
    requires Request(ms) >= 0
    ensures ms[Request(ms)].role.User?
  {
    LastUserIs(ms, |ms|);
  }

  /** What is kept of the activity is activity too. */
  lemma FittingIsActivity(cost: Message -> nat, ms: seq<Message>, toolsCost: nat) returns (rest: seq<Message>)
    requires CanPrune(cost, ms, toolsCost)
    ensures rest == Fitting(cost, Activity(ms), Room(cost, ms, toolsCost))
    ensures NoUser(rest) && ClampAll(rest) == rest && ms[Request(ms)].role.User?
  {
    var tail := Activity(ms);
    rest := Fitting(cost, tail, Room(cost, ms, toolsCost));
    RequestIsUser(ms);
    ActivityHasNoUser(ms);
    SuffixOfClamped(tail, FirstFit(cost, tail, Room(cost, ms, toolsCost), 0));
  }

  /** A new request makes everything before it but the first message irrelevant. */
  lemma NewRequest(cost: Message -> nat, one: seq<Message>, other: seq<Message>, e: seq<Message>, toolsCost: nat)
    requires one != [] && other != [] && one[0] == other[0] && !NoUser(e)
    ensures Prune(cost, one + e, toolsCost) == Prune(cost, other + e, toolsCost)
  {
    RequestInside(one, e);
    RequestInside(other, e);
    PastFirst(one, e, Request(e));
    PastFirst(other, e, Request(e));
  }

  lemma PastFirst<T>(a: seq<T>, b: seq<T>, i: nat)
    requires i < |b|
    ensures (a + b)[|a| + i] == b[i] && (a + b)[|a| + i + 1..] == b[i + 1..]
  {
  }

  lemma RequestInside(ms: seq<Message>, e: seq<Message>)
    requires !NoUser(e)
    ensures Request(e) >= 0 && Request(ms + e) == |ms| + Request(e)
  {
    var u, all := Request(e), ms + e;
    NoRequestIff(e);
    LastUserIs(e, |e|);
    forall j | |ms| + u < j < |all|
      ensures !all[j].role.User?
    {
      assert all[j] == e[j - |ms|];
    }
    LastUserBefore(all, |ms| + u, |all|);
  }

  /** The one case in which step-by-step pruning goes wrong: no new request, all the
      old activity was dropped, and what is new starts with a tool result and fits. */
  ghost predicate KeepsOrphan(cost: Message -> nat, ms: seq<Message>, e: seq<Message>, toolsCost: nat)
    requires CanPrune(cost, ms, toolsCost)
  {
    NoUser(e) && Orphaned(cost, Activity(ms), ClampAll(e), Room(cost, ms, toolsCost))
  }

  /** Pruning step by step is pruning the full history, except in that case. */
  lemma PruneIncrementalIff(cost: Message -> nat, ms: seq<Message>, e: seq<Message>, toolsCost: nat)
    requires CanPrune(cost, ms, toolsCost)
    ensures Prune(cost, Prune(cost, ms, toolsCost).value + e, toolsCost) == Prune(cost, ms + e, toolsCost)
            <==> !KeepsOrphan(cost, ms, e, toolsCost)
  {
    if NoUser(e) {
      var budget := Room(cost, ms, toolsCost);
      MoreThenPruned(cost, ms, e, toolsCost);
      PrunedThenMore(cost, ms, e, toolsCost);
      FittingGrows(cost, Activity(ms), ClampAll(e), budget);
      SameAfterTwo(ms[0], ms[Request(ms)], Fitting(cost, Fitting(cost, Activity(ms), budget) + ClampAll(e), budget),
                   Fitting(cost, Activity(ms) + ClampAll(e), budget));
    } else {
      NewRequest(cost, Prune(cost, ms, toolsCost).value, ms, e, toolsCost);
    }
  }

  lemma MoreThenPruned(cost: Message -> nat, ms: seq<Message>, e: seq<Message>, toolsCost: nat)
    requires CanPrune(cost, ms, toolsCost) && NoUser(e)
    ensures Prune(cost, ms + e, toolsCost) ==
            Ok([ms[0], ms[Request(ms)]] + Fitting(cost, Activity(ms) + ClampAll(e), Room(cost, ms, toolsCost)))
  {
    RequestStays(cost, ms, e, toolsCost);
  }

  lemma PrunedThenMore(cost: Message -> nat, ms: seq<Message>, e: seq<Message>, toolsCost: nat)
    requires CanPrune(cost, ms, toolsCost) && NoUser(e)
    ensures var budget := Room(cost, ms, toolsCost);
            Prune(cost, Prune(cost, ms, toolsCost).value + e, toolsCost) ==
            Ok([ms[0], ms[Request(ms)]] + Fitting(cost, Fitting(cost, Activity(ms), budget) + ClampAll(e), budget))
  {
    var kept := Prune(cost, ms, toolsCost).value;
    var rest := FittingIsActivity(cost, ms, toolsCost);
    RequestOfTwo(ms[0], ms[Request(ms)], rest);
    MoreThenPruned(cost, kept, e, toolsCost);
  }

  lemma SameAfterTwo(system: Message, user: Message, one: seq<Message>, other: seq<Message>)
    ensures [system, user] + one == [system, user] + other <==> one == other
  {
    assert ([system, user] + one)[2..] == one && ([system, user] + other)[2..] == other;
  }

  /** So new activity that starts a new exchange can be appended to the pruned
      conversation instead of the full one. */
  lemma PruneIncremental(cost: Message -> nat, ms: seq<Message>, e: seq<Message>, toolsCost: nat)
    requires e == [] || !e[0].role.ToolRole?
    requires CanPrune(cost, ms, toolsCost)
    ensures Prune(cost, Prune(cost, ms, toolsCost).value + e, toolsCost) == Prune(cost, ms + e, toolsCost)
  {
    PruneIncrementalIff(cost, ms, e, toolsCost);
  }

  /** A conversation that could not be pruned cannot be pruned later either. */
  lemma PruneFailsForGood(cost: Message -> nat, ms: seq<Message>, e: seq<Message>, toolsCost: nat)
    requires NoUser(e) && Prune(cost, ms, toolsCost).Err?
    ensures Prune(cost, ms + e, toolsCost).Err?
  {
    if Request(ms) >= 0 {
      RequestStays(cost, ms, e, toolsCost);
    } else {
      NoRequestIff(ms);
      NoUserJoin(ms, e);
      NoRequestIff(ms + e);
    }
  }

  lemma NoUserJoin(a: seq<Message>, b: seq<Message>)
    requires NoUser(a) && NoUser(b)
    ensures NoUser(a + b)
  {
  }

  lemma DroppedCall(system: Message, user: Message, big: Message, result: Message)
    requires system == Message(System, "", [], "", "") && user == Message(User, "", [], "", "")
    requires big.role.Assistant? && Cost(big) == 4008
    requires result == Message(ToolRole, "", [], "", "")
    ensures Prune(Cost, [system, user, big], 0) == Ok([system, user])
    ensures Prune(Cost, [system, user, big, result], 0) == Ok([system, user])
    ensures Prune(Cost, [system, user, result], 0) == Ok([system, user, result])
  {
    var ms, all, pruned := [system, user, big], [system, user, big, result], [system, user, result];
    LastUserBefore(ms, 1, 3);
    LastUserBefore(all, 1, 4);
    LastUserBefore(pruned, 1, 3);
    assert ms[2..] == [big] && all[2..] == [big, result] && pruned[2..] == [result];
    assert Activity(ms) == [big] && Activity(all) == [big, result] && Activity(pruned) == [result];
    assert Room(Cost, ms, 0) == 3824 && Room(Cost, all, 0) == 3824 && Room(Cost, pruned, 0) == 3824;
    FitsOf(big, result);
    assert Fitting(Cost, [big], 3824) == [] && Fitting(Cost, [big, result], 3824) == [];
    assert Fitting(Cost, [result], 3824) == [result];
    assert [system, user] + [] == [system, user] && [system, user] + [result] == pruned;
  }

  lemma FitsOf(big: Message, result: Message)
    requires big.role.Assistant? && Cost(big) == 4008
    requires result == Message(ToolRole, "", [], "", "")
    ensures FirstFit(Cost, [big], 3824, 0) == 1
    ensures FirstFit(Cost, [big, result], 3824, 0) == 2
    ensures FirstFit(Cost, [result], 3824, 0) == 0
  {
    assert CostFrom(Cost, [big], 0) == 4008 + CostFrom(Cost, [big], 1);
    assert CostFrom(Cost, [big, result], 0) == 4008 + CostFrom(Cost, [big, result], 1);
    assert CostFrom(Cost, [result], 0) == 8 + CostFrom(Cost, [result], 1);
    assert !Boundary([big, result], 1);
    assert FirstFit(Cost, [big, result], 3824, 0) == FirstFit(Cost, [big, result], 3824, 1);
  }

  /** The condition on the new activity is needed: a tool result whose call has
      been dropped would survive in the pruned conversation. */
  lemma IncrementalNeedsNewExchange() returns (ms: seq<Message>, e: seq<Message>, kept: seq<Message>)
    ensures NoUser(e) && Prune(Cost, ms, 0) == Ok(kept)
    ensures Prune(Cost, kept + e, 0) != Prune(Cost, ms + e, 0)
  {
    var system := Message(System, "", [], "", "");
    var user := Message(User, "", [], "", "");
    var text := seq(16000, i => 'x');
    var big := Message(Assistant, text, [], "", "");
    var result := Message(ToolRole, "", [], "", "");
    assert Cost(big) == 4008 by {
      assert EstimateTokens(text) == 4000;
      assert CallsCost(big.toolCalls, 0) == 0;
    }
    DroppedCall(system, user, big, result);
    ms, e, kept := [system, user, big], [result], [system, user];
    assert ms + e == [system, user, big, result];
    assert kept + e == [system, user, result];
  }

  /** Pruning twice is pruning once. */
  lemma PruneTwice(cost: Message -> nat, ms: seq<Message>, toolsCost: nat)
    requires CanPrune(cost, ms, toolsCost)
    ensures Prune(cost, Prune(cost, ms, toolsCost).value, toolsCost) == Prune(cost, ms, toolsCost)
  {
    PruneIncremental(cost, ms, [], toolsCost);
    assert ms + [] == ms && Prune(cost, ms, toolsCost).value + [] == Prune(cost, ms, toolsCost).value;
  }
}
