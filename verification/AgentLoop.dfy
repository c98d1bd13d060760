/** The bounded agent loop: model rounds, tool calls, and the three budgets that
    limit them. */
module AgentLoop {
  import opened GoStrings
  import opened GoValues
  import opened Options
  import opened Context
  import JsonSchema

  const MaxModelRounds := 3
  const MaxTotalToolCalls := 5
  const DefaultToolCallsPerTurn := 3
  const MaxResultBytes := 16384
  const MaxExposedTools := 6

  /** What the loop prints when it stops by itself. */
  datatype Ending =
    | Answered(content: string)
    | TooManyCalls
    | RepeatedCall
    | OutOfRounds

  function Line(e: Ending): string {
    match e
    case Answered(content) => TrimSpace(content)
    case TooManyCalls => "Agent stopped early: assistant requested too many tool calls in one turn."
    case RepeatedCall => "Agent stopped early: assistant repeated an identical tool call in one turn."
    case OutOfRounds => "Agent stopped: maximum model rounds reached."
  }

  /** The model's answer is printed without the white space around it. */
  lemma AnswerLineIs(content: string)
    ensures TrimmedOf(content, Line(Answered(content)))
  {
    TrimSpaceIs(content);
  }

  /** A tool an MCP server advertises; the schema is JSON text. */
  datatype McpTool = McpTool(name: string, description: string, inputSchema: string)

  datatype Category = InvalidArguments | UnknownTool | ToolError | WorkspaceViolation | ResultTooLarge

  /** Why a requested call is answered with an error. */
  datatype Refusal =
    | MissingId
    | UnsupportedKind
    | BudgetExhausted
    | NotExposed
    | NotAnObject
    | SchemaUnusable
    | NotDecodable
    | SchemaViolated
    | LimitExceeded(key: string)
    | PathNotString
    | PathRefused(category: Category)
    | ResultTooLong

  function CategoryOf(r: Refusal): Category {
    match r
    case BudgetExhausted | SchemaUnusable => ToolError
    case NotExposed => UnknownTool
    case PathRefused(category) => category
    case ResultTooLong => ResultTooLarge
    case _ => InvalidArguments
  }

  /** Which refusals carry which category. */
  lemma CategoriesAre(r: Refusal)
    ensures CategoryOf(r) == UnknownTool <==> r == NotExposed || r == PathRefused(UnknownTool)
    ensures CategoryOf(r) == ToolError <==> r == BudgetExhausted || r == SchemaUnusable || r == PathRefused(ToolError)
    ensures CategoryOf(r) == ResultTooLarge <==> r == ResultTooLong || r == PathRefused(ResultTooLarge)
    ensures r.PathRefused? ==> CategoryOf(r) == r.category
  {
  }

  datatype ToolReply = Broken(reason: string) | Replied(text: string, isError: bool)

  /** Everything outside the agent.  `model(n)` is the model's n-th answer and
      `tool(n)` the n-th answer of a tool, so that every run of a real model and
      real tools is a run in some world. */
  datatype World = World(
    model: nat -> Option<Message>,
    tool: nat -> ToolReply,
    decodeSchema: string -> Option<Fields>,
    decodeArguments: string -> Option<Fields>,
    order: JsonSchema.Order,
    pathProblem: string -> Option<Category>,
    errorPayload: (Category, Refusal) -> string,
    normalize: (string, bool) -> string)

  /** The model's replies have the role "assistant". */
  ghost predicate Speaks(w: World) {
    forall n :: w.model(n).Some? ==> w.model(n).value.role.Assistant?
  }

  // ----- Tools exposed to the model

  predicate Usable(w: World, discovered: map<string, McpTool>, name: string) {
    name in discovered && w.decodeSchema(discovered[name].inputSchema).Some?
  }

  /** The usable tools among the first `n` of a profile, at most six. */
  ghost function ExposedNames(w: World, discovered: map<string, McpTool>, profile: seq<string>, n: nat): seq<string>
    requires n <= |profile|
  {
    if n == 0 then []
    else
      var before := ExposedNames(w, discovered, profile, n - 1);
      if |before| < MaxExposedTools && Usable(w, discovered, profile[n - 1]) then before + [profile[n - 1]] else before
  }

  ghost function ToolList(w: World, discovered: map<string, McpTool>, names: seq<string>): seq<Tool>
    requires forall i :: 0 <= i < |names| ==> Usable(w, discovered, names[i])
  {
    seq(|names|, i requires 0 <= i < |names| && Usable(w, discovered, names[i]) => ToolFor(w, discovered, names[i]))
  }

  /** `AdaptTool`: the tool definition as the model sees it. */
  function ToolFor(w: World, discovered: map<string, McpTool>, name: string): Tool
    requires Usable(w, discovered, name)
  {
    var found := discovered[name];
    Tool(found.name, found.description, w.decodeSchema(found.inputSchema).value.Keys)
  }

  lemma {:induction false} ExposedAreUsable(w: World, discovered: map<string, McpTool>, profile: seq<string>, n: nat)
    requires n <= |profile|
    ensures var names := ExposedNames(w, discovered, profile, n);
            |names| <= MaxExposedTools && forall i :: 0 <= i < |names| ==> Usable(w, discovered, names[i]) && names[i] in profile[..n]
  {
    if n > 0 {
      ExposedAreUsable(w, discovered, profile, n - 1);
    }
  }

  /** The names stand in the profile at these places, in order, among the first `n`. */
  ghost predicate PlacedAt(names: seq<string>, profile: seq<string>, pos: seq<nat>, n: nat)
    requires n <= |profile|
  {
    && |pos| == |names| && (forall i, j :: 0 <= i < j < |pos| ==> pos[i] < pos[j])
    && (forall i :: 0 <= i < |pos| ==> pos[i] < n && names[i] == profile[pos[i]])
  }

  /** Place `k` is one of them, or comes behind six. */
  ghost predicate ListedOrLate(pos: seq<nat>, k: nat) {
    k in pos || (|pos| == 6 && pos[5] < k)
  }

  lemma PlacedAtMore(names: seq<string>, profile: seq<string>, pos: seq<nat>, n: nat)
    requires n < |profile| && PlacedAt(names, profile, pos, n)
    ensures PlacedAt(names, profile, pos, n + 1)
    ensures PlacedAt(names + [profile[n]], profile, pos + [n], n + 1)
  {
  }

  lemma ListedMore(pos: seq<nat>, n: nat)
    requires |pos| < 6
    ensures ListedOrLate(pos + [n], n) && forall k :: ListedOrLate(pos, k) ==> ListedOrLate(pos + [n], k)
  {
    assert (pos + [n])[|pos|] == n;
    assert forall k :: k in pos ==> k in pos + [n];
  }

  /** The exposed tools stand in the profile in this order, and a usable tool is left out
      only when six come before it. */
  lemma {:induction false} ExposedPlaces(w: World, discovered: map<string, McpTool>, profile: seq<string>, n: nat) returns (pos: seq<nat>)
    requires n <= |profile|
    ensures PlacedAt(ExposedNames(w, discovered, profile, n), profile, pos, n)
    ensures forall k :: 0 <= k < n && profile[k] in discovered && w.decodeSchema(discovered[profile[k]].inputSchema).Some? ==>
              ListedOrLate(pos, k)
  {
    if n == 0 {
      pos := [];
    } else {
      pos := ExposedPlaces(w, discovered, profile, n - 1);
      ExposedAreUsable(w, discovered, profile, n - 1);
      PlacedAtMore(ExposedNames(w, discovered, profile, n - 1), profile, pos, n - 1);
      if |pos| < MaxExposedTools && Usable(w, discovered, profile[n - 1]) {
        ListedMore(pos, n - 1);
        pos := pos + [n - 1];
      }
    }
  }

  /** What the model is shown of a tool: its name, its description and the keys of its
      schema. */
  lemma ShownAs(w: World, discovered: map<string, McpTool>, profile: seq<string>, i: nat)
    requires i < |ExposedNames(w, discovered, profile, |profile|)|
    ensures var name := ExposedNames(w, discovered, profile, |profile|)[i];
            var shown := ExposedTools(w, discovered, profile);
            && i < |shown| && name in discovered && w.decodeSchema(discovered[name].inputSchema).Some?
            && shown[i].name == discovered[name].name && shown[i].description == discovered[name].description
            && shown[i].parameters == w.decodeSchema(discovered[name].inputSchema).value.Keys
  {
    ExposedAreUsable(w, discovered, profile, |profile|);
  }

  /** The tools the model is shown, in profile order. */
  ghost function ExposedTools(w: World, discovered: map<string, McpTool>, profile: seq<string>): seq<Tool> {
    ExposedAreUsable(w, discovered, profile, |profile|);
    ToolList(w, discovered, ExposedNames(w, discovered, profile, |profile|))
  }

  /** The lookup table for the same tools. */
  ghost predicate ExposedTable(w: World, discovered: map<string, McpTool>, profile: seq<string>, exposed: map<string, McpTool>) {
    && (forall name :: name in exposed <==> name in ExposedNames(w, discovered, profile, |profile|))
    && (forall name :: name in exposed ==> name in discovered && exposed[name] == discovered[name])
  }

  method ExposeProfile(w: World, discovered: map<string, McpTool>, profile: seq<string>)
      returns (exposed: map<string, McpTool>, tools: seq<Tool>)
    ensures tools == ExposedTools(w, discovered, profile) && |tools| <= MaxExposedTools
    ensures ExposedTable(w, discovered, profile, exposed)
  {
    exposed, tools := map[], [];
    ghost var names := [];
    for index := 0 to |profile|
      invariant names == ExposedNames(w, discovered, profile, index) && |names| <= MaxExposedTools
      invariant forall i :: 0 <= i < |names| ==> Usable(w, discovered, names[i])
      invariant tools == ToolList(w, discovered, names)
      invariant forall name :: name in exposed <==> name in names
      invariant forall name :: name in exposed ==> name in discovered && exposed[name] == discovered[name]
    {
      var name := profile[index];
      if |tools| < MaxExposedTools && Usable(w, discovered, name) {
        exposed := exposed[name := discovered[name]];
        tools := tools + [ToolFor(w, discovered, name)];
        names := names + [name];
      }
    }
  }

  // ----- Checking one call

  const RequestedLimits: map<string, int> := map[
    "max_bytes" := 12288,
    "lines" := 200,
    "max_matches" := 20,
    "max_results" := 200,
    "max_text_chars" := 12288]

  /** `jsonschema.Number`: the value as an int64, if it is one. */
  function IntOf(v: Value): Option<int> {
    match JsonSchema.NumberOf(v)
    case Some(x) => if JsonSchema.IsInteger(x) then Some(x.Floor) else None
    case None => None
  }

  predicate WithinLimit(key: string, v: Value) {
    key in RequestedLimits ==> IntOf(v).Some? && IntOf(v).value <= RequestedLimits[key]
  }

  function PathProblem(w: World, tool: McpTool, key: string, v: Value): Option<Refusal> {
    if key != "path" then None
    else if !v.Str? then Some(PathNotString)
    else if tool.name == "basename" || tool.name == "dirname" then None
    else match w.pathProblem(v.s) case Some(category) => Some(PathRefused(category)) case None => None
  }

  function RawArguments(call: ToolCall): string {
    var raw := TrimSpace(call.function_.arguments);
    if raw == "" then "{}" else raw
  }

  /** What the model asked for, without white space at the ends; nothing but white
      space stands for no arguments. */
  ghost predicate AskedArguments(asked: string, given: string) {
    if AllWhite(asked) then given == "{}" else TrimmedOf(asked, given)
  }

  lemma RawArgumentsAre(call: ToolCall)
    ensures AskedArguments(call.function_.arguments, RawArguments(call))
  {
    TrimSpaceIs(call.function_.arguments);
    TrimsToNothingIff(call.function_.arguments);
  }

  /** Arguments the agent lets through to a tool. */
  ghost predicate GoodArguments(w: World, tool: McpTool, raw: string) {
    && w.decodeSchema(tool.inputSchema).Some? && w.decodeArguments(raw).Some?
    && var schema := Object(w.decodeSchema(tool.inputSchema).value);
    && var arguments := w.decodeArguments(raw).value;
    && JsonSchema.Validate(w.order, schema, Object(arguments), []).Accepted?
    && forall k :: k in arguments ==> WithinLimit(k, arguments[k]) && PathProblem(w, tool, k, arguments[k]).None?
  }

  /** An argument, if given, is a whole number and at most `most`. */
  ghost predicate AtMost(arguments: Fields, key: string, most: int) {
    key in arguments ==>
      exists n: int :: -0x8000_0000_0000_0000 <= n < 0x8000_0000_0000_0000 && n <= most && IsNumber(arguments[key], n)
  }

  predicate IsNumber(v: Value, n: int) {
    match v
    case Int(i) => i == n
    case Float(x) => x == n as real
    case Number(_, parsed) => parsed == Some(n as real)
    case _ => false
  }

  /** A path argument is text, and one the workspace allows unless the tool only
      handles the text. */
  ghost predicate PathAllowed(w: World, tool: McpTool, arguments: Fields) {
    "path" in arguments ==>
      && arguments["path"].Str?
      && (tool.name == "basename" || tool.name == "dirname" || w.pathProblem(arguments["path"].s) == None)
  }

  lemma IntOfIs(v: Value, most: int)
    ensures IntOf(v).Some? && IntOf(v).value <= most <==>
            exists n: int :: -0x8000_0000_0000_0000 <= n < 0x8000_0000_0000_0000 && n <= most && IsNumber(v, n)
  {
    if IntOf(v).Some? {
      assert IsNumber(v, IntOf(v).value);
    }
  }

  /** The limits of the five bounded arguments and the rule for paths: together what
      `CheckArguments` lets through. */
  lemma ArgumentsAllowedIff(w: World, tool: McpTool, arguments: Fields)
    ensures (forall k :: k in arguments ==> WithinLimit(k, arguments[k]) && PathProblem(w, tool, k, arguments[k]).None?) <==>
              && AtMost(arguments, "max_bytes", 12288) && AtMost(arguments, "max_text_chars", 12288)
              && AtMost(arguments, "lines", 200) && AtMost(arguments, "max_results", 200)
              && AtMost(arguments, "max_matches", 20) && PathAllowed(w, tool, arguments)
  {
    forall k | k in RequestedLimits
      ensures (k in arguments ==> WithinLimit(k, arguments[k])) <==> AtMost(arguments, k, RequestedLimits[k])
    {
      if k in arguments {
        IntOfIs(arguments[k], RequestedLimits[k]);
      }
    }
    var keys := ["max_bytes", "max_text_chars", "lines", "max_results", "max_matches"];
    assert forall k :: k in RequestedLimits <==> k in keys;
    assert forall i :: 0 <= i < |keys| ==> keys[i] in RequestedLimits;
    assert keys[0] in RequestedLimits && keys[1] in RequestedLimits && keys[2] in RequestedLimits;
    assert keys[3] in RequestedLimits && keys[4] in RequestedLimits;
  }

  /** The validator panics on these arguments. */
  ghost predicate Panics(w: World, tool: McpTool, raw: string) {
    && w.decodeSchema(tool.inputSchema).Some? && w.decodeArguments(raw).Some?
    && JsonSchema.Validate(w.order, Object(w.decodeSchema(tool.inputSchema).value),
                           Object(w.decodeArguments(raw).value), []).Panicked?
  }

  /** Why a call that passed the cheap checks is refused all the same: what stands
      against it, with every check before it passed. */
  ghost predicate LateRefusal(w: World, tool: McpTool, raw: string, r: Refusal) {
    var schema, given := w.decodeSchema(tool.inputSchema), w.decodeArguments(raw);
    match r
    case SchemaUnusable => schema.None?
    case NotDecodable => schema.Some? && given.None?
    case SchemaViolated =>
      schema.Some? && given.Some? && JsonSchema.Validate(w.order, Object(schema.value), Object(given.value), []).Rejected?
    case LimitExceeded(key) => given.Some? && key in given.value && !WithinLimit(key, given.value[key])
    case PathNotString => given.Some? && "path" in given.value && !given.value["path"].Str?
    case PathRefused(category) =>
      given.Some? && "path" in given.value && given.value["path"].Str? && w.pathProblem(given.value["path"].s) == Some(category)
    case _ => false
  }

  datatype Verdict = Allowed(tool: McpTool, raw: string) | Refused(refusal: Refusal) | Crashed

  method CheckArguments(w: World, tool: McpTool, arguments: Fields) returns (problem: Option<Refusal>)
    ensures problem.None? <==>
              forall k :: k in arguments ==> WithinLimit(k, arguments[k]) && PathProblem(w, tool, k, arguments[k]).None?
    ensures problem.Some? ==>
              exists k :: k in arguments &&
                if WithinLimit(k, arguments[k]) then problem == PathProblem(w, tool, k, arguments[k])
                else problem == Some(LimitExceeded(k))
  {
    var keys := arguments.Keys;
    while keys != {}
      invariant keys <= arguments.Keys
      invariant forall k :: k in arguments && k !in keys ==>
                  WithinLimit(k, arguments[k]) && PathProblem(w, tool, k, arguments[k]).None?
    {
      var key :| key in keys;
      if !WithinLimit(key, arguments[key]) {
        return Some(LimitExceeded(key));
      }
      var path := PathProblem(w, tool, key, arguments[key]);
      if path.Some? {
        return path;
      }
      keys := keys - {key};
    }
    return None;
  }

  predicate KnownKind(call: ToolCall) {
    call.kind == "" || call.kind == "function"
  }

  /** The call passes every check. */
  ghost predicate Permitted(w: World, exposed: map<string, McpTool>, toolCalls: nat, call: ToolCall) {
    && KnownKind(call) && toolCalls < MaxTotalToolCalls && call.function_.name in exposed
    && "{" <= RawArguments(call) && GoodArguments(w, exposed[call.function_.name], RawArguments(call))
  }

  /** What the cheap checks say: the kind of the call comes before the budget, and
      the budget before the name. */
  ghost function EarlyRefusal(exposed: map<string, McpTool>, toolCalls: nat, call: ToolCall): Option<Refusal> {
    if !KnownKind(call) then Some(UnsupportedKind)
    else if toolCalls >= MaxTotalToolCalls then Some(BudgetExhausted)
    else if call.function_.name !in exposed then Some(NotExposed)
    else if !("{" <= RawArguments(call)) then Some(NotAnObject)
    else None
  }

  /** The checks on one requested call, in the code's order. */
  method ValidateCall(w: World, exposed: map<string, McpTool>, toolCalls: nat, call: ToolCall) returns (r: Verdict)
    ensures r.Allowed? <==> Permitted(w, exposed, toolCalls, call)
    ensures r.Allowed? ==> r.tool == exposed[call.function_.name] && r.raw == RawArguments(call)
    ensures r.Crashed? ==> call.function_.name in exposed && Panics(w, exposed[call.function_.name], RawArguments(call))
    ensures EarlyRefusal(exposed, toolCalls, call).Some? ==> r == Refused(EarlyRefusal(exposed, toolCalls, call).value)
    ensures EarlyRefusal(exposed, toolCalls, call).None? && r.Refused? ==>
              LateRefusal(w, exposed[call.function_.name], RawArguments(call), r.refusal)
  {
    if !KnownKind(call) {
      return Refused(UnsupportedKind);
    }
    if toolCalls >= MaxTotalToolCalls {
      return Refused(BudgetExhausted);
    }
    if call.function_.name !in exposed {
      return Refused(NotExposed);
    }
    var tool := exposed[call.function_.name];
    var raw := RawArguments(call);
    if !("{" <= raw) {
      return Refused(NotAnObject);
    }
    var schema := w.decodeSchema(tool.inputSchema);
    if schema.None? {
      return Refused(SchemaUnusable);
    }
    var arguments := w.decodeArguments(raw);
    if arguments.None? {
      return Refused(NotDecodable);
    }
    var outcome := JsonSchema.Validate(w.order, Object(schema.value), Object(arguments.value), []);
    if outcome.Panicked? {
      return Crashed;
    }
    if outcome.Rejected? {
      return Refused(SchemaViolated);
    }
    var problem := CheckArguments(w, tool, arguments.value);
    if problem.Some? {
      return Refused(problem.value);
    }
    return Allowed(tool, raw);
  }

  // ----- Blocks: an assistant message and the results of its calls

  /** Calls are told apart by name and arguments. */
  function CallKey(call: ToolCall): string {
    call.function_.name + "\n" + TrimSpace(call.function_.arguments)
  }

  /** Calls of tools whose names hold no newline share a key exactly when they have the
      same name and the same arguments up to white space at the ends. */
  lemma SameCallKeyIff(a: ToolCall, b: ToolCall)
    requires '\n' !in a.function_.name && '\n' !in b.function_.name
    ensures CallKey(a) == CallKey(b) <==>
            a.function_.name == b.function_.name && TrimSpace(a.function_.arguments) == TrimSpace(b.function_.arguments)
  {
    SeparatedParts('\n', a.function_.name, TrimSpace(a.function_.arguments), b.function_.name, TrimSpace(b.function_.arguments));
  }

  function CallId(call: ToolCall): string {
    TrimSpace(call.id)
  }

  /** A call's result is sent under the call's own id, without white space around it,
      and one of white space alone is none. */
  lemma CallIdIs(call: ToolCall)
    ensures TrimmedOf(call.id, CallId(call)) && (CallId(call) == "" <==> AllWhite(call.id))
  {
    TrimSpaceIs(call.id);
    TrimsToNothingIff(call.id);
  }

  /** The id given to a call that came without one. */
  function InventedId(round: nat, index: nat): string {
    "call_" + Itoa(round) + "_" + Itoa(index)
  }

  /** Different calls of a run are given different ids. */
  lemma InventedIdsDiffer(r: nat, i: nat, s: nat, j: nat)
    requires InventedId(r, i) == InventedId(s, j)
    ensures r == s && i == j
  {
    var one, other := Itoa(r) + ['_'] + Itoa(i), Itoa(s) + ['_'] + Itoa(j);
    assert InventedId(r, i)[5..] == one && InventedId(s, j)[5..] == other;
    SeparatedParts('_', Itoa(r), Itoa(i), Itoa(s), Itoa(j));
    ItoaInjective(r, s);
    ItoaInjective(i, j);
  }

  /** How calls are told apart and identified; a parameter of the facts below. */
  datatype Naming = Naming(key: ToolCall -> string, id: ToolCall -> string)

  const CallNaming := Naming(CallKey, CallId)

  ghost predicate DistinctCalls(n: Naming, calls: seq<ToolCall>) {
    forall i, j :: 0 <= i < j < |calls| ==> n.key(calls[i]) != n.key(calls[j])
  }

  /** `m` is the result of `call`: it has the call's name, and its id if it has one. */
  ghost predicate Answers(n: Naming, m: Message, call: ToolCall) {
    && m.role.ToolRole? && m.name == call.function_.name
    && (n.id(call) != "" ==> m.toolCallID == n.id(call))
  }

  ghost predicate AllAnswered(n: Naming, calls: seq<ToolCall>, results: seq<Message>) {
    |results| == |calls| && forall i :: 0 <= i < |calls| ==> Answers(n, results[i], calls[i])
  }

  /** A whole block starts at `i`: an assistant message with at least one and at
      most `limit` calls, all different, and then their results in call order. */
  ghost predicate BlockAt(n: Naming, limit: nat, ms: seq<Message>, i: nat) {
    && i < |ms| && ms[i].role.Assistant?
    && 1 <= |ms[i].toolCalls| <= limit && DistinctCalls(n, ms[i].toolCalls)
    && i + 1 + |ms[i].toolCalls| <= |ms|
    && AllAnswered(n, ms[i].toolCalls, ms[i + 1..i + 1 + |ms[i].toolCalls|])
  }

  /** From `i` on there is nothing but whole blocks. */
  ghost predicate Blocks(n: Naming, limit: nat, ms: seq<Message>, i: nat)
    requires i <= |ms|
    decreases |ms| - i
  {
    i == |ms| || (BlockAt(n, limit, ms, i) && Blocks(n, limit, ms, i + 1 + |ms[i].toolCalls|))
  }

  lemma {:induction false} BlocksShift(n: Naming, limit: nat, ms: seq<Message>, c: nat, i: nat)
    requires c <= i <= |ms|
    ensures Blocks(n, limit, ms[c..], i - c) <==> Blocks(n, limit, ms, i)
    decreases |ms| - i
  {
    if i < |ms| && i + 1 + |ms[i].toolCalls| <= |ms| {
      BlocksShift(n, limit, ms, c, i + 1 + |ms[i].toolCalls|);
      var next := i + 1 + |ms[i].toolCalls|;
      assert ms[c..][i - c + 1..next - c] == ms[i + 1..next];
    }
  }

  /** After the assistant message a block holds tool results only. */
  lemma InsideBlock(n: Naming, limit: nat, ms: seq<Message>, i: nat, j: nat)
    requires BlockAt(n, limit, ms, i) && i < j < i + 1 + |ms[i].toolCalls|
    ensures ms[j].role.ToolRole?
  {
    assert Answers(n, ms[i + 1..i + 1 + |ms[i].toolCalls|][j - i - 1], ms[i].toolCalls[j - i - 1]);
  }

  /** A boundary of the activity is the start of a block. */
  lemma {:induction false} BoundaryStartsBlock(n: Naming, limit: nat, ms: seq<Message>, i: nat, c: nat)
    requires i <= c <= |ms| && Blocks(n, limit, ms, i)
    requires c == i || c == |ms| || !ms[c].role.ToolRole?
    ensures Blocks(n, limit, ms, c)
    decreases |ms| - i
  {
    if i < c && i < |ms| {
      var next := i + 1 + |ms[i].toolCalls|;
      if c < next {
        InsideBlock(n, limit, ms, i, c);
      } else {
        BoundaryStartsBlock(n, limit, ms, next, c);
      }
    }
  }

  lemma {:induction false} BlocksOfClamped(n: Naming, limit: nat, ms: seq<Message>, i: nat)
    requires i <= |ms| && Blocks(n, limit, ms, i)
    ensures Blocks(n, limit, ClampAll(ms), i)
    decreases |ms| - i
  {
    if i < |ms| {
      var calls := ms[i].toolCalls;
      var next := i + 1 + |calls|;
      BlocksOfClamped(n, limit, ms, next);
      var results := ms[i + 1..next];
      var clamped := ClampAll(ms)[i + 1..next];
      forall j | 0 <= j < |calls|
        ensures Answers(n, clamped[j], calls[j])
      {
        assert Answers(n, results[j], calls[j]);
        assert clamped[j] == Clamped(results[j]);
      }
      assert ClampAll(ms)[i] == ms[i];
    }
  }

  lemma {:induction false} BlocksJoin(n: Naming, limit: nat, ms: seq<Message>, more: seq<Message>, i: nat)
    requires i <= |ms| && Blocks(n, limit, ms, i) && Blocks(n, limit, more, 0)
    ensures Blocks(n, limit, ms + more, i)
    decreases |ms| - i
  {
    var all := ms + more;
    if i < |ms| {
      var next := i + 1 + |ms[i].toolCalls|;
      BlocksJoin(n, limit, ms, more, next);
      assert all[i] == ms[i] && all[i + 1..next] == ms[i + 1..next];
    } else {
      assert all[i..] == more;
      BlocksShift(n, limit, all, i, i);
    }
  }

  lemma OneBlock(n: Naming, limit: nat, reply: Message, results: seq<Message>)
    requires reply.role.Assistant? && 1 <= |reply.toolCalls| <= limit && DistinctCalls(n, reply.toolCalls)
    requires AllAnswered(n, reply.toolCalls, results)
    ensures Blocks(n, limit, [reply] + results, 0)
  {
    var block := [reply] + results;
    assert block[1..1 + |results|] == results;
    assert Blocks(n, limit, block, |block|);
  }

  /** Cutting activity at a boundary keeps whole blocks. */
  lemma FittingKeepsBlocks(n: Naming, limit: nat, cost: Message -> nat, tail: seq<Message>, budget: nat)
    requires Blocks(n, limit, tail, 0)
    ensures Blocks(n, limit, Fitting(cost, tail, budget), 0)
  {
    var cut := FirstFit(cost, tail, budget, 0);
    FirstFitIs(cost, tail, budget, 0);
    BoundaryStartsBlock(n, limit, tail, 0, cut);
    BlocksShift(n, limit, tail, cut, cut);
  }

  lemma {:induction false} BlocksHoldNoUser(n: Naming, limit: nat, ms: seq<Message>, i: nat)
    requires i <= |ms| && Blocks(n, limit, ms, i)
    ensures forall j :: i <= j < |ms| ==> !ms[j].role.User?
    decreases |ms| - i
  {
    if i < |ms| {
      var next := i + 1 + |ms[i].toolCalls|;
      BlocksHoldNoUser(n, limit, ms, next);
      forall j | i <= j < next
        ensures !ms[j].role.User?
      {
        if i < j {
          InsideBlock(n, limit, ms, i, j);
        }
      }
    }
  }

  /** What a model call may be sent: the system message, the request, and whole
      blocks; and all of it, with the tools, leaves room for the answer. */
  ghost predicate WellFormedRequest(n: Naming, limit: nat, toolsCost: nat, sent: seq<Message>) {
    && |sent| >= 2 && sent[0].role.System? && sent[1].role.User?
    && Blocks(n, limit, sent[2..], 0)
    && CostFrom(Cost, sent, 0) + toolsCost + ReservedTokens <= ContextTokens
  }

  lemma PrunedIsWellFormed(n: Naming, limit: nat, toolsCost: nat, system: Message, user: Message, tail: seq<Message>)
    requires system.role.System? && user.role.User? && Blocks(n, limit, tail, 0)
    requires Prune(Cost, [system, user] + tail, toolsCost).Ok?
    ensures WellFormedRequest(n, limit, toolsCost, Prune(Cost, [system, user] + tail, toolsCost).value)
  {
    var ms := [system, user] + tail;
    BlocksHoldNoUser(n, limit, tail, 0);
    RequestOfTwo(system, user, tail);
    BlocksOfClamped(n, limit, tail, 0);
    var fitting := Fitting(Cost, ClampAll(tail), Room(Cost, ms, toolsCost));
    FittingKeepsBlocks(n, limit, Cost, ClampAll(tail), Room(Cost, ms, toolsCost));
    assert ([system, user] + fitting)[2..] == fitting;
    PrunedFits(Cost, ms, toolsCost);
  }

  ghost function KeysOf(n: Naming, calls: seq<ToolCall>, k: nat): set<string>
    requires k <= |calls|
  {
    if k == 0 then {} else KeysOf(n, calls, k - 1) + {n.key(calls[k - 1])}
  }

  lemma {:induction false} InKeysOf(n: Naming, calls: seq<ToolCall>, k: nat, key: string)
    requires k <= |calls|
    ensures key in KeysOf(n, calls, k) <==> exists i :: 0 <= i < k && n.key(calls[i]) == key
  {
    if k > 0 {
      InKeysOf(n, calls, k - 1, key);
    }
  }

  lemma NewKey(n: Naming, calls: seq<ToolCall>, k: nat)
    requires k < |calls| && DistinctCalls(n, calls[..k])
    ensures n.key(calls[k]) in KeysOf(n, calls, k) ==> !DistinctCalls(n, calls[..k + 1])
    ensures n.key(calls[k]) !in KeysOf(n, calls, k) ==> DistinctCalls(n, calls[..k + 1])
  {
    InKeysOf(n, calls, k, n.key(calls[k]));
  }

  // ----- The session

  /** A call the agent made: in which round, as which call of the turn, to what. */
  datatype Invocation = Invocation(round: nat, index: nat, tool: McpTool, arguments: string)

  /** One round after the other, and in a round one call after the other. */
  ghost predicate InOrder(calls: seq<Invocation>) {
    forall i, j :: 0 <= i < j < |calls| ==>
      calls[i].round < calls[j].round || (calls[i].round == calls[j].round && calls[i].index < calls[j].index)
  }

  /** The invocation is what one of these requested calls asks for. */
  ghost predicate AskedFor(requested: seq<ToolCall>, c: Invocation) {
    && c.index < |requested| && c.tool.name == requested[c.index].function_.name
    && AskedArguments(requested[c.index].function_.arguments, c.arguments)
  }

  ghost predicate AllAskedFor(requested: seq<ToolCall>, before: seq<Invocation>, now: seq<Invocation>) {
    before <= now && forall i :: |before| <= i < |now| ==> AskedFor(requested, now[i])
  }

  datatype Trouble = Panic | NoClient | SessionUnusable(reason: string)

  /** How the trouble came from a requested call, after these calls were made. */
  ghost predicate Explains(w: World, discovered: map<string, McpTool>, clients: set<string>,
                           call: ToolCall, made: seq<Invocation>, t: Trouble) {
    && call.function_.name in discovered
    && match t
       case Panic => Panics(w, discovered[call.function_.name], RawArguments(call))
       case NoClient => call.function_.name !in clients
       case SessionUnusable(reason) =>
         && made != [] && made[|made| - 1].tool == discovered[call.function_.name]
         && AskedArguments(call.function_.arguments, made[|made| - 1].arguments) && w.tool(|made| - 1) == Broken(reason)
  }

  /** The message tells the model what the tool answered, or that it was too long. */
  ghost predicate Reports(w: World, m: Message, reply: ToolReply) {
    && reply.Replied?
    && m.content == if |reply.text| > 16384 then w.errorPayload(ResultTooLarge, ResultTooLong)
                    else w.normalize(reply.text, reply.isError)
  }

  ghost predicate Refuses(w: World, m: Message) {
    exists refusal :: m.content == w.errorPayload(CategoryOf(refusal), refusal)
  }

  predicate IsCall(c: Invocation, round: nat, index: nat) {
    c.round == round && c.index == index
  }

  ghost predicate NotMade(start: nat, calls: seq<Invocation>, round: nat, index: nat) {
    forall j :: start <= j < |calls| ==> !IsCall(calls[j], round, index)
  }

  /** The model is told what came of this call of the round: the answer of the tool,
      if the call was made after the first `start`, and a refusal if not. */
  ghost predicate Told(w: World, start: nat, calls: seq<Invocation>, round: nat, index: nat, m: Message) {
    || (exists j :: start <= j < |calls| && IsCall(calls[j], round, index) && Reports(w, m, w.tool(j)))
    || (NotMade(start, calls, round, index) && Refuses(w, m))
  }

  ghost predicate AllTold(w: World, start: nat, calls: seq<Invocation>, round: nat, results: seq<Message>) {
    forall i :: 0 <= i < |results| ==> Told(w, start, calls, round, i, results[i])
  }

  lemma ToldNow(w: World, start: seq<Invocation>, before: seq<Invocation>, now: seq<Invocation>, round: nat, index: nat, m: Message)
    requires TurnLogged(start, before, round, index)
    requires if now == before then Refuses(w, m)
             else |now| == |before| + 1 && before <= now && IsCall(now[|before|], round, index) && Reports(w, m, w.tool(|before|))
    ensures Told(w, |start|, now, round, index, m)
  {
    forall j | |start| <= j < |before|
      ensures !IsCall(before[j], round, index)
    {
      assert before[j] == before[|start|..][j - |start|];
    }
    if now != before {
      assert IsCall(now[|before|], round, index);
    }
  }

  lemma ToldStays(w: World, start: nat, before: seq<Invocation>, now: seq<Invocation>, round: nat, index: nat, m: Message)
    requires start <= |before| && before <= now && Told(w, start, before, round, index, m)
    requires NotMade(|before|, now, round, index)
    ensures Told(w, start, now, round, index, m)
  {
    if j :| start <= j < |before| && IsCall(before[j], round, index) && Reports(w, m, w.tool(j)) {
      assert IsCall(now[j], round, index);
    } else {
      forall j | start <= j < |now|
        ensures !IsCall(now[j], round, index)
      {
        assert j < |before| ==> now[j] == before[j];
      }
    }
  }

  lemma AllToldGrows(w: World, start: nat, before: seq<Invocation>, now: seq<Invocation>, round: nat, results: seq<Message>, m: Message)
    requires start <= |before| && before <= now && AllTold(w, start, before, round, results)
    requires forall i :: 0 <= i < |results| ==> NotMade(|before|, now, round, i)
    requires Told(w, start, now, round, |results|, m)
    ensures AllTold(w, start, now, round, results + [m])
  {
    forall i | 0 <= i < |results|
      ensures Told(w, start, now, round, i, results[i])
    {
      ToldStays(w, start, before, now, round, i, results[i]);
    }
  }

  datatype CallResult = Result(message: Message) | Fatal(trouble: Trouble)

  datatype TurnResult = Completed(results: seq<Message>) | Stopped(ending: Ending) | Failed(trouble: Trouble)

  class Session {
    const perTurn: int
    const prompt: string
    const systemPrompt: string
    const profile: seq<string>
    const discovered: map<string, McpTool>
    const clients: set<string>
    const world: World
    var toolCalls: nat
    /** The endings whose lines were printed, the requests sent to the model, the calls made. */
    var out: seq<Ending>
    var requests: seq<seq<Message>>
    var calls: seq<Invocation>

    constructor (perTurn: int, prompt: string, systemPrompt: string, profile: seq<string>,
                 discovered: map<string, McpTool>, clients: set<string>, world: World)
      requires forall name :: name in discovered ==> discovered[name].name == name
      requires Speaks(world)
      ensures Valid()
      ensures toolCalls == 0 && out == [] && requests == [] && calls == []
    {
      this.perTurn, this.prompt, this.systemPrompt, this.profile := perTurn, prompt, systemPrompt, profile;
      this.discovered, this.clients, this.world := discovered, clients, world;
      toolCalls, out, requests, calls := 0, [], [], [];
    }

    function Limit(): (l: nat)
      ensures l == if perTurn > 0 then perTurn else 3
    {
      if perTurn <= 0 then DefaultToolCallsPerTurn else perTurn
    }

    /** A call that was allowed to happen: to an exposed tool, with arguments that
        satisfy its schema and the limits. */
    ghost predicate Sound(c: Invocation) {
      && c.tool in discovered.Values
      && c.tool.name in ExposedNames(world, discovered, profile, |profile|)
      && "{" <= c.arguments && GoodArguments(world, c.tool, c.arguments)
    }

    /** The budget of the whole session, and that every call so far was sound. */
    ghost predicate Valid()
      reads this
    {
      && Speaks(world) && (forall name :: name in discovered ==> discovered[name].name == name)
      && |calls| <= toolCalls <= MaxTotalToolCalls
      && AllSound(calls)
    }

    ghost predicate AllSound(made: seq<Invocation>) {
      forall i :: 0 <= i < |made| ==> Sound(made[i])
    }

    lemma SoundJoin(made: seq<Invocation>, c: Invocation)
      requires AllSound(made) && Sound(c)
      ensures AllSound(made + [c])
    {
    }

    function Payload(refusal: Refusal): string {
      world.errorPayload(CategoryOf(refusal), refusal)
    }

    /** The call reaches a tool. */
    ghost predicate Made(exposed: map<string, McpTool>, spent: nat, call: ToolCall) {
      && CallId(call) != "" && Permitted(world, exposed, spent, call)
      && call.function_.name in clients
    }

    /** The call itself, which is counted even when the tool has no client. */
    method CallTheTool(tool: McpTool, raw: string, id: string, round: nat, index: nat) returns (r: CallResult)
      requires Valid() && toolCalls < MaxTotalToolCalls && Sound(Invocation(round, index, tool, raw))
      modifies this`toolCalls, this`calls
      ensures Valid() && toolCalls == old(toolCalls) + 1
      ensures tool.name !in clients ==> calls == old(calls) && r == Fatal(NoClient)
      ensures tool.name in clients ==>
                && calls == old(calls) + [Invocation(round, index, tool, raw)]
                && match world.tool(|old(calls)|)
                   case Broken(reason) => r == Fatal(SessionUnusable(reason))
                   case Replied(_, _) =>
                     && r.Result? && r.message.role.ToolRole? && r.message.name == tool.name && r.message.toolCallID == id
                     && Reports(world, r.message, world.tool(|old(calls)|))
    {
      toolCalls := toolCalls + 1;
      if tool.name !in clients {
        return Fatal(NoClient);
      }
      var reply := world.tool(|calls|);
      SoundJoin(calls, Invocation(round, index, tool, raw));
      calls := calls + [Invocation(round, index, tool, raw)];
      match reply
      case Broken(reason) =>
        return Fatal(SessionUnusable(reason));
      case Replied(text, isError) =>
        var content := if |text| > MaxResultBytes then Payload(ResultTooLong) else world.normalize(text, isError);
        return Result(Message(ToolRole, content, [], id, tool.name));
    }

    /** One requested call: validated, made, and its result turned into a message. */
    method RunToolCall(exposed: map<string, McpTool>, call: ToolCall, round: nat, index: nat) returns (r: CallResult)
      requires Valid()
      requires ExposedTable(world, discovered, profile, exposed)
      modifies this`toolCalls, this`calls
      ensures Valid() && old(toolCalls) <= toolCalls <= old(toolCalls) + 1
      ensures r.Result? ==> Answers(CallNaming, r.message, call)
      ensures if Made(exposed, old(toolCalls), call)
              then calls == old(calls) + [Invocation(round, index, exposed[call.function_.name], RawArguments(call))]
              else calls == old(calls)
      ensures r.Fatal? ==> Explains(world, discovered, clients, call, calls, r.trouble)
      ensures r == Fatal(NoClient) <==>
                CallId(call) != "" && Permitted(world, exposed, old(toolCalls), call) && call.function_.name !in clients
      ensures r.Fatal? && r.trouble.SessionUnusable? <==>
                Made(exposed, old(toolCalls), call) && world.tool(|old(calls)|).Broken?
      ensures r.Result? && calls != old(calls) ==> Reports(world, r.message, world.tool(|old(calls)|))
      ensures r.Result? && calls == old(calls) ==> Refuses(world, r.message)
      ensures CallId(call) == "" ==>
                r == Result(Message(ToolRole, world.errorPayload(InvalidArguments, MissingId), [], InventedId(round, index),
                                    call.function_.name))
      ensures CallId(call) != "" && EarlyRefusal(exposed, old(toolCalls), call).Some? ==>
                r.Result? && r.message.content == Payload(EarlyRefusal(exposed, old(toolCalls), call).value)
    {
      RawArgumentsAre(call);
      var id := CallId(call);
      if id == "" {
        var content := Payload(MissingId);
        return Result(Message(ToolRole, content, [], InventedId(round, index), call.function_.name));
      }
      var verdict := ValidateCall(world, exposed, toolCalls, call);
      match verdict
      case Crashed =>
        return Fatal(Panic);
      case Refused(refusal) =>
        return Result(Message(ToolRole, Payload(refusal), [], id, call.function_.name));
      case Allowed(tool, raw) =>
        r := CallTheTool(tool, raw, id, round, index);
    }

    /** One call of the turn that began when `start` were made. */
    method RunRequested(exposed: map<string, McpTool>, requested: seq<ToolCall>, index: nat, round: nat,
                        ghost run: Run, ghost start: seq<Invocation>)
        returns (r: CallResult)
      requires Valid() && ExposedTable(world, discovered, profile, exposed) && index < |requested|
      requires run.world == world && run.discovered == discovered && run.clients == clients
      requires CallsSoFar(requested, start, calls, round, index)
      modifies this`toolCalls, this`calls
      ensures Valid() && old(toolCalls) <= toolCalls
      ensures CallsSoFar(requested, start, calls, round, index + 1)
      ensures r.Result? ==> Answers(CallNaming, r.message, requested[index]) && Told(world, |start|, calls, round, index, r.message)
      ensures r.Fatal? ==> ExplainedBy(run, requested, calls, r.trouble)
      ensures old(calls) <= calls && forall i :: 0 <= i < index ==> NotMade(|old(calls)|, calls, round, i)
    {
      RawArgumentsAre(requested[index]);
      r := RunToolCall(exposed, requested[index], round, index);
      CallsGrow(requested, start, old(calls), calls, round, index);
      if r.Fatal? {
        assert Explains(run.world, run.discovered, run.clients, requested[index], calls, r.trouble);
      } else {
        ToldNow(world, start, old(calls), calls, round, index, r.message);
      }
    }

    /** The calls of one turn, each run when the limits allow it. */
    method RunTurn(exposed: map<string, McpTool>, reply: Message, round: nat, ghost run: Run) returns (r: TurnResult)
      requires Valid() && ExposedTable(world, discovered, profile, exposed)
      requires run.naming == CallNaming && run.limit == Limit()
      requires run.world == world && run.discovered == discovered && run.clients == clients
      modifies this`toolCalls, this`calls
      ensures Valid() && old(toolCalls) <= toolCalls
      ensures CallsSoFar(reply.toolCalls, old(calls), calls, round, run.limit)
      ensures TurnOutcome(run.naming, run.limit, reply.toolCalls, r)
      ensures r.Failed? ==> ExplainedBy(run, reply.toolCalls, calls, r.trouble)
      ensures r.Completed? ==> AllTold(world, |old(calls)|, calls, round, r.results)
    {
      var limit := Limit();
      var seen: set<string> := {};
      var results: seq<Message> := [];
      for index := 0 to |reply.toolCalls|
        invariant Valid() && old(toolCalls) <= toolCalls && index <= limit
        invariant TurnUnderway(run, reply.toolCalls, round, old(calls), calls, index, seen, results)
      {
        var call := reply.toolCalls[index];
        TurnMayStop(run, reply.toolCalls, round, old(calls), calls, index, seen, results);
        if index >= limit {
          return Stopped(TooManyCalls);
        }
        var key := CallNaming.key(call);
        if key in seen {
          return Stopped(RepeatedCall);
        }
        ghost var before := calls;
        var result := RunRequested(exposed, reply.toolCalls, index, round, run, old(calls));
        if result.Fatal? {
          CallsWithin(reply.toolCalls, old(calls), calls, round, index + 1, limit);
          return Failed(result.trouble);
        }
        TurnContinues(run, reply.toolCalls, round, old(calls), before, calls, index, seen, results, result.message);
        seen := seen + {key};
        results := results + [result.message];
      }
      TurnIsComplete(run, reply.toolCalls, round, old(calls), calls, seen, results);
      return Completed(results);
    }

    ghost function ToolsBudget(): nat {
      var tools := ExposedTools(world, discovered, profile);
      ToolsCost(tools, |tools|)
    }

    /** The run that a call of `Loop` makes after these requests and calls. */
    ghost function ThisRun(sent: seq<seq<Message>>, made: seq<Invocation>): Run {
      Run(world, CallNaming, Limit(), Cost, ToolsBudget(),
          Message(System, systemPrompt, [], "", ""), Message(User, prompt, [], "", ""), sent, made,
          discovered, clients)
    }

    /** One model call: the conversation is pruned and sent. */
    method Ask(messages: seq<Message>, tools: seq<Tool>, ghost run: Run, ghost rounds: seq<Round>)
        returns (r: Options.Result<Message, Failure>)
      requires run.world == world && run.cost == Cost && run.toolsCost == ToolsCost(tools, |tools|)
      requires Underway(run, rounds, requests, calls) && |rounds| < MaxModelRounds && run.user.role.User?
      requires messages == run.Opening() + Talk(rounds, |rounds|)
      modifies this`requests
      ensures r.Err? ==> Finished(run, rounds, requests, calls, Err(r.error)) && r.error != NoUsableTools
      ensures r.Ok? ==> Waiting(run, rounds, requests) && world.model(|requests| - 1) == Some(r.value)
    {
      var pruned := PruneMessages(messages, tools);
      if pruned.Err? {
        TooLongEnds(run, rounds, requests, calls);
        return Err(RequestTooLong);
      }
      NextRequest(run, rounds, requests, calls, pruned.value);
      requests := requests + [pruned.value];
      var answer := world.model(|requests| - 1);
      if answer.None? {
        return Err(ModelFailed);
      }
      return Ok(answer.value);
    }

    /** The model's reply ends the run, or its calls are made and the next round is due. */
    method HandleReply(exposed: map<string, McpTool>, reply: Message, round: nat, ghost run: Run, ghost rounds: seq<Round>)
        returns (step: Step)
      requires Valid() && ExposedTable(world, discovered, profile, exposed)
      requires run.world == world && run.naming == CallNaming && run.limit == Limit()
      requires run.discovered == discovered && run.clients == clients
      requires Waiting(run, rounds, requests) && |rounds| == round - 1 < MaxModelRounds
      requires RunLogged(run.made, calls, round - 1, run.limit) && Faithful(run, rounds, calls)
      requires world.model(|requests| - 1) == Some(reply)
      modifies this`toolCalls, this`calls
      ensures Valid() && old(toolCalls) <= toolCalls
      ensures step.Next? ==> step.round.reply == reply && Underway(run, rounds + [step.round], requests, calls)
      ensures step.End? ==> Finished(run, rounds, requests, calls, step.result) && step.result != Err(NoUsableTools)
    {
      RoundStarts(run.made, calls, round, run.limit);
      if |reply.toolCalls| == 0 {
        RunAnswered(run, reply, round, |requests| - 1);
        return End(Ok(Answered(reply.content)));
      }
      ghost var before := calls;
      var turn := RunTurn(exposed, reply, round, run);
      RoundEnds(run.made, before, calls, round, run.limit);
      TurnIsFaithful(run, rounds, before, calls, reply, round);
      AfterTurn(run, rounds, reply, |requests| - 1, turn, requests[|run.sent|..], calls);
      match turn
      case Failed(trouble) =>
        return End(Err(ToolFailed(trouble)));
      case Stopped(ending) =>
        return End(Ok(ending));
      case Completed(results) =>
        RoundIsFaithful(run, rounds, before, calls, Round(reply, results));
        return Next(Round(reply, results));
    }

    /** One round: the model is asked, and its reply is handled. */
    method RunRound(exposed: map<string, McpTool>, tools: seq<Tool>, messages: seq<Message>, round: nat,
                    ghost run: Run, ghost rounds: seq<Round>)
        returns (step: Step)
      requires Valid() && ExposedTable(world, discovered, profile, exposed) && tools == ExposedTools(world, discovered, profile)
      requires run == ThisRun(run.sent, run.made)
      requires Underway(run, rounds, requests, calls) && |rounds| == round - 1 < MaxModelRounds
      requires messages == run.Opening() + Talk(rounds, |rounds|)
      modifies this`toolCalls, this`calls, this`requests
      ensures Valid() && old(toolCalls) <= toolCalls
      ensures step.Next? ==> Underway(run, rounds + [step.round], requests, calls)
      ensures step.End? ==> Finished(run, rounds, requests, calls, step.result) && step.result != Err(NoUsableTools)
      ensures AllGood(run, requests[|run.sent|..])
    {
      var answer := Ask(messages, tools, run, rounds);
      SentIsGood(run, rounds, requests[|run.sent|..]);
      if answer.Err? {
        return End(Err(answer.error));
      }
      step := HandleReply(exposed, answer.value, round, run, rounds);
    }

    /** At most three rounds, until one of them ends the run. */
    method RunRounds(exposed: map<string, McpTool>, tools: seq<Tool>, ghost run: Run)
        returns (r: Options.Result<Ending, Failure>, ghost rounds: seq<Round>)
      requires Valid() && ExposedTable(world, discovered, profile, exposed) && tools == ExposedTools(world, discovered, profile)
      requires run == ThisRun(run.sent, run.made) && Underway(run, [], requests, calls)
      modifies this`toolCalls, this`calls, this`requests
      ensures Valid() && old(toolCalls) <= toolCalls
      ensures Finished(run, rounds, requests, calls, r) && r != Err(NoUsableTools)
      ensures AllGood(run, requests[|run.sent|..])
    {
      rounds := [];
      var messages := [Message(System, systemPrompt, [], "", ""), Message(User, prompt, [], "", "")];
      for round := 1 to MaxModelRounds + 1
        invariant Valid() && old(toolCalls) <= toolCalls && |rounds| == round - 1
        invariant messages == run.Opening() + Talk(rounds, |rounds|)
        invariant Underway(run, rounds, requests, calls) && AllGood(run, requests[|run.sent|..])
      {
        var step := RunRound(exposed, tools, messages, round, run, rounds);
        match step
        case End(result) =>
          return result, rounds;
        case Next(whole) =>
          TalkGoesOn(run, rounds, whole);
          messages := messages + [whole.reply] + whole.results;
          rounds := rounds + [whole];
      }
      AllRoundsDone(run, rounds, requests, calls);
      return Ok(OutOfRounds), rounds;
    }

    /** One run: at most three model rounds, one final line or an error. */
    method Loop() returns (r: Options.Result<Ending, Failure>, ghost rounds: seq<Round>)
      requires Valid()
      modifies this
      ensures Valid() && old(toolCalls) <= toolCalls
      ensures out == old(out) + (if r.Ok? then [r.value] else [])
      ensures Finished(ThisRun(old(requests), old(calls)), rounds, requests, calls, r)
      ensures AllGood(ThisRun(old(requests), old(calls)), requests[|old(requests)|..])
      ensures AllStartWith(requests[|old(requests)|..], Message(System, systemPrompt, [], "", ""), Message(User, prompt, [], "", ""))
      ensures r == Err(NoUsableTools) <==> ExposedNames(world, discovered, profile, |profile|) == []
    {
      var exposed, tools := ExposeProfile(world, discovered, profile);
      ghost var run := ThisRun(requests, calls);
      NothingYet(run, requests, calls);
      if |exposed| == 0 {
        return Err(NoUsableTools), [];
      }
      r, rounds := RunRounds(exposed, tools, run);
      GoodStarts(run, requests[|old(requests)|..]);
      if r.Ok? {
        out := out + [r.value];
      }
    }
  }

  datatype Failure = NoUsableTools | RequestTooLong | ModelFailed | ToolFailed(trouble: Trouble)

  /** How a reply leaves the run: over, or due for a further round. */
  datatype Step = End(result: Options.Result<Ending, Failure>) | Next(round: Round)

  /** The invocation is what the model asked for in this round of the run. */
  ghost predicate FromModel(run: Run, c: Invocation) {
    && 1 <= c.round && run.world.model(|run.sent| + c.round - 1).Some?
    && AskedFor(run.world.model(|run.sent| + c.round - 1).value.toolCalls, c)
  }

  /** All calls of the run are what the model asked for, and the results of every
      completed round tell the model what came of them. */
  ghost predicate Faithful(run: Run, rounds: seq<Round>, calls: seq<Invocation>) {
    && run.made <= calls && (forall i :: |run.made| <= i < |calls| ==> FromModel(run, calls[i]))
    && (forall k :: 0 <= k < |rounds| ==> AllTold(run.world, |run.made|, calls, k + 1, rounds[k].results))
  }

  lemma TurnIsFaithful(run: Run, rounds: seq<Round>, before: seq<Invocation>, now: seq<Invocation>, reply: Message, round: nat)
    requires Faithful(run, rounds, before) && |rounds| == round - 1 && run.world.model(|run.sent| + round - 1) == Some(reply)
    requires CallsSoFar(reply.toolCalls, before, now, round, run.limit)
    ensures Faithful(run, rounds, now)
  {
    forall j | |before| <= j < |now|
      ensures now[j].round == round && FromModel(run, now[j])
    {
      assert now[j] == now[|before|..][j - |before|];
    }
    forall k | 0 <= k < |rounds|
      ensures AllTold(run.world, |run.made|, now, k + 1, rounds[k].results)
    {
      EarlierStaysTold(run.world, |run.made|, before, now, k + 1, rounds[k].results);
    }
  }

  lemma EarlierStaysTold(w: World, start: nat, before: seq<Invocation>, now: seq<Invocation>, round: nat, results: seq<Message>)
    requires start <= |before| && before <= now && AllTold(w, start, before, round, results)
    requires forall j :: |before| <= j < |now| ==> now[j].round != round
    ensures AllTold(w, start, now, round, results)
  {
    forall i | 0 <= i < |results|
      ensures Told(w, start, now, round, i, results[i])
    {
      ToldStays(w, start, before, now, round, i, results[i]);
    }
  }

  lemma RoundIsFaithful(run: Run, rounds: seq<Round>, before: seq<Invocation>, now: seq<Invocation>, r: Round)
    requires Faithful(run, rounds, now) && run.made <= before <= now && RunLogged(run.made, before, |rounds|, run.limit)
    requires AllTold(run.world, |before|, now, |rounds| + 1, r.results)
    ensures Faithful(run, rounds + [r], now)
  {
    forall j | |run.made| <= j < |before|
      ensures now[j].round <= |rounds|
    {
      assert now[j] == before[j] == before[|run.made|..][j - |run.made|];
    }
    forall i | 0 <= i < |r.results|
      ensures Told(run.world, |run.made|, now, |rounds| + 1, i, r.results[i])
    {
      ToldFromStart(run.world, |run.made|, |before|, now, |rounds| + 1, i, r.results[i]);
    }
    forall k | 0 <= k < |rounds + [r]|
      ensures AllTold(run.world, |run.made|, now, k + 1, (rounds + [r])[k].results)
    {
      assert k < |rounds| ==> (rounds + [r])[k] == rounds[k];
    }
  }

  lemma ToldFromStart(w: World, start: nat, later: nat, calls: seq<Invocation>, round: nat, index: nat, m: Message)
    requires start <= later <= |calls| && Told(w, later, calls, round, index, m)
    requires forall j :: start <= j < later ==> calls[j].round != round
    ensures Told(w, start, calls, round, index, m)
  {
    if j :| later <= j < |calls| && IsCall(calls[j], round, index) && Reports(w, m, w.tool(j)) {
    } else {
      assert NotMade(later, calls, round, index);
    }
  }

  /** The run stands where these rounds leave it. */
  ghost predicate Underway(run: Run, rounds: seq<Round>, requests: seq<seq<Message>>, calls: seq<Invocation>) {
    && run.sent <= requests && |requests| == |run.sent| + |rounds|
    && Asked(run, rounds, requests[|run.sent|..])
    && RunLogged(run.made, calls, |rounds|, run.limit) && Faithful(run, rounds, calls)
  }

  /** The run has sent the request of its next round. */
  ghost predicate Waiting(run: Run, rounds: seq<Round>, requests: seq<seq<Message>>) {
    && run.sent <= requests && |requests| == |run.sent| + |rounds| + 1
    && Asked(run, rounds, requests[|run.sent|..])
  }

  /** The run is over: it sent at most three requests, made its calls in order and
      within the limit, and ended for the reason it gives. */
  ghost predicate Finished(run: Run, rounds: seq<Round>, requests: seq<seq<Message>>, calls: seq<Invocation>,
                           r: Options.Result<Ending, Failure>) {
    && run.sent <= requests && |requests| <= |run.sent| + MaxModelRounds
    && Asked(run, rounds, requests[|run.sent|..])
    && RunLogged(run.made, calls, |requests| - |run.sent|, run.limit) && Faithful(run, rounds, calls)
    && (if r.Ok? then EndedAs(run, |requests| - |run.sent|, r.value) else FailedAs(run, |requests| - |run.sent|, calls, r.error))
  }

  lemma NothingYet(run: Run, requests: seq<seq<Message>>, calls: seq<Invocation>)
    requires requests == run.sent && calls == run.made
    ensures Underway(run, [], requests, calls)
    ensures Finished(run, [], requests, calls, Err(NoUsableTools))
  {
  }

  lemma TooLongEnds(run: Run, rounds: seq<Round>, requests: seq<seq<Message>>, calls: seq<Invocation>)
    requires Underway(run, rounds, requests, calls) && run.user.role.User?
    requires Prune(run.cost, run.Opening() + Talk(rounds, |rounds|), run.toolsCost).Err?
    ensures Finished(run, rounds, requests, calls, Err(RequestTooLong))
  {
    NeverTooLongLater(run, rounds, requests[|run.sent|..]);
    assert run.Opening() + Talk(rounds, 0) == run.Opening();
  }

  lemma NextRequest(run: Run, rounds: seq<Round>, requests: seq<seq<Message>>, calls: seq<Invocation>, ms: seq<Message>)
    requires Underway(run, rounds, requests, calls) && SentInRound(run, rounds, |rounds|, ms)
    ensures Waiting(run, rounds, requests + [ms])
    ensures |rounds| < MaxModelRounds && run.world.model(|requests|).None? ==>
              Finished(run, rounds, requests + [ms], calls, Err(ModelFailed))
  {
    RequestSent(run, rounds, requests[|run.sent|..], ms);
    assert (requests + [ms])[|run.sent|..] == requests[|run.sent|..] + [ms];
    RoundStarts(run.made, calls, |rounds| + 1, run.limit);
  }

  // ----- What a run sends to the model

  /** A reply of the model and the results of its calls. */
  datatype Round = Round(reply: Message, results: seq<Message>)

  /** What a run is made with, and the requests and calls made before it. */
  datatype Run = Run(world: World, naming: Naming, limit: nat, cost: Message -> nat, toolsCost: nat, system: Message, user: Message, sent: seq<seq<Message>>, made: seq<Invocation>,
                     discovered: map<string, McpTool>, clients: set<string>)
  {
    /** What every conversation of the run starts with. */
    ghost function Opening(): seq<Message> { [system, user] }
  }

  /** All that was said in the first `k` rounds. */
  ghost function Talk(rounds: seq<Round>, k: nat): seq<Message>
    requires k <= |rounds|
  {
    if k == 0 then [] else Talk(rounds, k - 1) + [rounds[k - 1].reply] + rounds[k - 1].results
  }

  /** Round `k` was the model's reply with its calls answered in full. */
  ghost predicate WholeRound(run: Run, k: nat, r: Round) {
    && run.world.model(|run.sent| + k) == Some(r.reply) && r.reply.role.Assistant?
    && 1 <= |r.reply.toolCalls| <= run.limit && DistinctCalls(run.naming, r.reply.toolCalls)
    && AllAnswered(run.naming, r.reply.toolCalls, r.results)
  }

  /** Request `k` was the pruned conversation of the rounds before it. */
  ghost predicate SentInRound(run: Run, rounds: seq<Round>, k: nat, sent: seq<Message>) {
    && k <= |rounds| && Prune(run.cost, [run.system, run.user] + Talk(rounds, k), run.toolsCost) == Ok(sent)
  }

  /** The requests of a run and the rounds that were completed. */
  ghost predicate Asked(run: Run, rounds: seq<Round>, sent: seq<seq<Message>>) {
    |rounds| <= |sent| <= |rounds| + 1 && AllWhole(run, rounds) && AllSent(run, rounds, sent)
  }

  ghost predicate AllWhole(run: Run, rounds: seq<Round>) {
    forall k :: 0 <= k < |rounds| ==> WholeRound(run, k, rounds[k])
  }

  ghost predicate AllSent(run: Run, rounds: seq<Round>, sent: seq<seq<Message>>) {
    forall k :: 0 <= k < |sent| ==> SentInRound(run, rounds, k, sent[k])
  }

  lemma {:induction false} TalkOfPrefix(rounds: seq<Round>, more: seq<Round>, k: nat)
    requires k <= |rounds|
    ensures Talk(rounds + more, k) == Talk(rounds, k)
  {
    if k > 0 {
      TalkOfPrefix(rounds, more, k - 1);
    }
  }

  lemma {:induction false} TalkIsBlocks(run: Run, rounds: seq<Round>, k: nat)
    requires k <= |rounds| && AllWhole(run, rounds)
    ensures Blocks(run.naming, run.limit, Talk(rounds, k), 0)
  {
    if k > 0 {
      var r := rounds[k - 1];
      assert WholeRound(run, k - 1, r);
      TalkIsBlocks(run, rounds, k - 1);
      OneBlock(run.naming, run.limit, r.reply, r.results);
      BlocksJoin(run.naming, run.limit, Talk(rounds, k - 1), [r.reply] + r.results, 0);
      assert Talk(rounds, k) == Talk(rounds, k - 1) + ([r.reply] + r.results);
    }
  }

  /** Every request of every run is well-formed. */
  lemma RequestsAreWellFormed(run: Run, rounds: seq<Round>, sent: seq<seq<Message>>, k: nat)
    requires Asked(run, rounds, sent) && k < |sent|
    requires run.cost == Cost && run.system.role.System? && run.user.role.User?
    ensures WellFormedRequest(run.naming, run.limit, run.toolsCost, sent[k])
    ensures sent[k][0] == run.system && sent[k][1] == run.user
  {
    assert SentInRound(run, rounds, k, sent[k]);
    TalkIsBlocks(run, rounds, k);
    PrunedIsWellFormed(run.naming, run.limit, run.toolsCost, run.system, run.user, Talk(rounds, k));
    BlocksHoldNoUser(run.naming, run.limit, Talk(rounds, k), 0);
    RequestOfTwo(run.system, run.user, Talk(rounds, k));
  }

  /** A well-formed request that starts with the run's system message and request. */
  ghost predicate GoodRequest(run: Run, ms: seq<Message>) {
    WellFormedRequest(run.naming, run.limit, run.toolsCost, ms) && ms[0] == run.system && ms[1] == run.user
  }

  /** All of the run's requests are good. */
  ghost predicate AllGood(run: Run, sent: seq<seq<Message>>) {
    forall k :: 0 <= k < |sent| ==> GoodRequest(run, sent[k])
  }

  ghost predicate AllStartWith(sent: seq<seq<Message>>, first: Message, second: Message) {
    forall k :: 0 <= k < |sent| ==> |sent[k]| >= 2 && sent[k][0] == first && sent[k][1] == second
  }

  lemma GoodStarts(run: Run, sent: seq<seq<Message>>)
    requires AllGood(run, sent)
    ensures AllStartWith(sent, run.system, run.user)
  {
    forall k | 0 <= k < |sent|
      ensures |sent[k]| >= 2 && sent[k][0] == run.system && sent[k][1] == run.user
    {
      assert GoodRequest(run, sent[k]);
    }
  }

  lemma SentIsGood(run: Run, rounds: seq<Round>, sent: seq<seq<Message>>)
    requires Asked(run, rounds, sent) && run.cost == Cost && run.system.role.System? && run.user.role.User?
    ensures AllGood(run, sent)
  {
    forall k | 0 <= k < |sent|
      ensures GoodRequest(run, sent[k])
    {
      RequestsAreWellFormed(run, rounds, sent, k);
    }
  }

  lemma RequestSent(run: Run, rounds: seq<Round>, sent: seq<seq<Message>>, ms: seq<Message>)
    requires Asked(run, rounds, sent) && |sent| == |rounds|
    requires SentInRound(run, rounds, |rounds|, ms)
    ensures Asked(run, rounds, sent + [ms])
  {
    forall k | 0 <= k < |sent + [ms]|
      ensures SentInRound(run, rounds, k, (sent + [ms])[k])
    {
      assert k < |sent| ==> SentInRound(run, rounds, k, sent[k]);
    }
  }

  lemma RoundDone(run: Run, rounds: seq<Round>, r: Round, sent: seq<seq<Message>>)
    requires Asked(run, rounds, sent) && |sent| == |rounds| + 1
    requires WholeRound(run, |rounds|, r)
    ensures Asked(run, rounds + [r], sent)
  {
    StillAllWhole(run, rounds, r);
    StillAllSent(run, rounds, r, sent);
  }

  lemma TalkGoesOn(run: Run, rounds: seq<Round>, r: Round)
    ensures run.Opening() + Talk(rounds + [r], |rounds| + 1) == run.Opening() + Talk(rounds, |rounds|) + [r.reply] + r.results
  {
    TalkOfPrefix(rounds, [r], |rounds|);
    JoinedInAnyOrder(run.Opening(), Talk(rounds, |rounds|), [r.reply], r.results);
  }

  lemma JoinedInAnyOrder<T>(a: seq<T>, b: seq<T>, c: seq<T>, d: seq<T>)
    ensures a + (b + c + d) == a + b + c + d
  {
  }

  lemma StillAllWhole(run: Run, rounds: seq<Round>, r: Round)
    requires AllWhole(run, rounds) && WholeRound(run, |rounds|, r)
    ensures AllWhole(run, rounds + [r])
  {
    forall k | 0 <= k < |rounds + [r]|
      ensures WholeRound(run, k, (rounds + [r])[k])
    {
      if k < |rounds| {
        assert (rounds + [r])[k] == rounds[k];
      }
    }
  }

  lemma StillAllSent(run: Run, rounds: seq<Round>, r: Round, sent: seq<seq<Message>>)
    requires AllSent(run, rounds, sent)
    ensures AllSent(run, rounds + [r], sent)
  {
    forall k | 0 <= k < |sent|
      ensures SentInRound(run, rounds + [r], k, sent[k])
    {
      StillSent(run, rounds, r, k, sent[k]);
    }
  }

  lemma StillSent(run: Run, rounds: seq<Round>, r: Round, k: nat, ms: seq<Message>)
    requires SentInRound(run, rounds, k, ms)
    ensures SentInRound(run, rounds + [r], k, ms)
  {
    TalkOfPrefix(rounds, [r], k);
  }

  lemma TalkHoldsNoUser(run: Run, rounds: seq<Round>)
    requires AllWhole(run, rounds)
    ensures NoUser(Talk(rounds, |rounds|))
  {
    TalkIsBlocks(run, rounds, |rounds|);
    BlocksHoldNoUser(run.naming, run.limit, Talk(rounds, |rounds|), 0);
  }

  lemma StillFits(cost: Message -> nat, system: Message, user: Message, tail: seq<Message>, toolsCost: nat)
    requires user.role.User? && NoUser(tail) && Prune(cost, [system, user], toolsCost).Ok?
    ensures Prune(cost, [system, user] + tail, toolsCost).Ok?
  {
    assert [system, user] + [] == [system, user];
    RequestOfTwo(system, user, []);
    RequestStays(cost, [system, user], tail, toolsCost);
  }

  /** A conversation that was pruned once never grows too long: only the first
      model call of a run can fail for its length. */
  lemma NeverTooLongLater(run: Run, rounds: seq<Round>, sent: seq<seq<Message>>)
    requires Asked(run, rounds, sent) && |sent| == |rounds| && run.user.role.User?
    requires Prune(run.cost, [run.system, run.user] + Talk(rounds, |rounds|), run.toolsCost).Err?
    ensures sent == []
  {
    if sent != [] {
      assert SentInRound(run, rounds, 0, sent[0]);
      assert run.Opening() + Talk(rounds, 0) == run.Opening();
      TalkHoldsNoUser(run, rounds);
      StillFits(run.cost, run.system, run.user, Talk(rounds, |rounds|), run.toolsCost);
    }
  }

  /** The calls of a run of `rounds` rounds: at most `limit` in each, in order. */
  ghost predicate RunCalls(calls: seq<Invocation>, rounds: nat, limit: nat) {
    && InOrder(calls)
    && forall i :: 0 <= i < |calls| ==> 1 <= calls[i].round <= rounds && calls[i].index < limit
  }

  ghost predicate RunLogged(before: seq<Invocation>, now: seq<Invocation>, rounds: nat, limit: nat) {
    before <= now && RunCalls(now[|before|..], rounds, limit)
  }

  lemma RoundStarts(start: seq<Invocation>, now: seq<Invocation>, round: nat, limit: nat)
    requires 1 <= round && RunLogged(start, now, round - 1, limit)
    ensures RunLogged(start, now, round, limit)
  {
  }

  lemma RoundEnds(start: seq<Invocation>, before: seq<Invocation>, now: seq<Invocation>, round: nat, limit: nat)
    requires 1 <= round && RunLogged(start, before, round - 1, limit) && TurnLogged(before, now, round, limit)
    ensures RunLogged(start, now, round, limit)
  {
    var run, turn := before[|start|..], now[|before|..];
    assert now[|start|..] == run + turn;
  }

  /** The trouble came from one of the requested calls. */
  ghost predicate ExplainedBy(run: Run, requested: seq<ToolCall>, made: seq<Invocation>, t: Trouble) {
    exists k :: 0 <= k < |requested| && Explains(run.world, run.discovered, run.clients, requested[k], made, t)
  }

  /** What the failure of a run of so many rounds says; a request is too long from the
      start or never. */
  ghost predicate FailedAs(run: Run, rounds: nat, calls: seq<Invocation>, f: Failure) {
    match f
    case NoUsableTools => rounds == 0
    case RequestTooLong => rounds == 0 && Prune(run.cost, run.Opening(), run.toolsCost).Err?
    case ModelFailed => 0 < rounds && run.world.model(|run.sent| + rounds - 1).None?
    case ToolFailed(trouble) =>
      && 0 < rounds && run.world.model(|run.sent| + rounds - 1).Some?
      && ExplainedBy(run, run.world.model(|run.sent| + rounds - 1).value.toolCalls, calls, trouble)
  }

  /** What the ending of a run of so many rounds says about the model's last reply. */
  ghost predicate EndedAs(run: Run, rounds: nat, e: Ending) {
    && 0 < rounds && run.world.model(|run.sent| + rounds - 1).Some?
    && var reply := run.world.model(|run.sent| + rounds - 1).value;
    match e
    case Answered(content) => reply.toolCalls == [] && content == reply.content
    case TooManyCalls => |reply.toolCalls| > run.limit && DistinctCalls(run.naming, reply.toolCalls[..run.limit])
    case RepeatedCall => !DistinctCalls(run.naming, reply.toolCalls)
    case OutOfRounds =>
      && rounds == MaxModelRounds && 0 < |reply.toolCalls| <= run.limit
      && DistinctCalls(run.naming, reply.toolCalls)
  }

  lemma RunAnswered(run: Run, reply: Message, rounds: nat, asked: nat)
    requires 0 < rounds && asked == |run.sent| + rounds - 1 && run.world.model(asked) == Some(reply) && reply.toolCalls == []
    ensures EndedAs(run, rounds, Answered(reply.content))
  {
  }

  /** How a turn ends decides whether the run goes on. */
  lemma AfterTurn(run: Run, rounds: seq<Round>, reply: Message, asked: nat, turn: TurnResult, sent: seq<seq<Message>>,
                  calls: seq<Invocation>)
    requires Asked(run, rounds, sent) && |sent| == |rounds| + 1
    requires asked == |run.sent| + |rounds| && run.world.model(asked) == Some(reply) && reply.role.Assistant? && |reply.toolCalls| > 0
    requires TurnOutcome(run.naming, run.limit, reply.toolCalls, turn)
    requires turn.Failed? ==> ExplainedBy(run, reply.toolCalls, calls, turn.trouble)
    ensures turn.Stopped? ==> EndedAs(run, |rounds| + 1, turn.ending)
    ensures turn.Failed? ==> FailedAs(run, |rounds| + 1, calls, ToolFailed(turn.trouble))
    ensures turn.Completed? ==> Asked(run, rounds + [Round(reply, turn.results)], sent)
  {
    match turn
    case Completed(results) => RoundDone(run, rounds, Round(reply, results), sent);
    case Stopped(_) =>
    case Failed(_) =>
  }

  lemma AllRoundsDone(run: Run, rounds: seq<Round>, requests: seq<seq<Message>>, calls: seq<Invocation>)
    requires Underway(run, rounds, requests, calls) && |rounds| == MaxModelRounds
    ensures Finished(run, rounds, requests, calls, Ok(OutOfRounds))
  {
    assert WholeRound(run, MaxModelRounds - 1, rounds[MaxModelRounds - 1]);
  }

  /** Where a turn stands after `k` of its calls. */
  ghost predicate TurnSoFar(n: Naming, calls: seq<ToolCall>, k: nat, seen: set<string>, results: seq<Message>)
    requires k <= |calls|
  {
    AllAnswered(n, calls[..k], results) && seen == KeysOf(n, calls, k) && DistinctCalls(n, calls[..k])
  }

  /** What the way a turn ended says about its calls. */
  ghost predicate TurnOutcome(n: Naming, limit: nat, calls: seq<ToolCall>, r: TurnResult) {
    match r
    case Completed(results) => AllAnswered(n, calls, results) && |calls| <= limit && DistinctCalls(n, calls)
    case Stopped(TooManyCalls) => |calls| > limit && DistinctCalls(n, calls[..limit])
    case Stopped(RepeatedCall) => exists k :: 0 <= k < |calls| && k < limit && DistinctCalls(n, calls[..k]) && !DistinctCalls(n, calls[..k + 1])
    case Stopped(_) => false
    case Failed(_) => true
  }

  lemma TurnStops(n: Naming, limit: nat, calls: seq<ToolCall>, k: nat, seen: set<string>, results: seq<Message>)
    requires k < |calls| && k <= limit && TurnSoFar(n, calls, k, seen, results)
    ensures k >= limit ==> TurnOutcome(n, limit, calls, Stopped(TooManyCalls))
    ensures k < limit && n.key(calls[k]) in seen ==> TurnOutcome(n, limit, calls, Stopped(RepeatedCall))
  {
    NewKey(n, calls, k);
  }

  lemma TurnGoesOn(n: Naming, calls: seq<ToolCall>, k: nat, seen: set<string>, results: seq<Message>, m: Message)
    requires k < |calls| && TurnSoFar(n, calls, k, seen, results)
    requires n.key(calls[k]) !in seen && Answers(n, m, calls[k])
    ensures TurnSoFar(n, calls, k + 1, seen + {n.key(calls[k])}, results + [m])
  {
    NewKey(n, calls, k);
  }

  lemma TurnEnds(n: Naming, limit: nat, calls: seq<ToolCall>, seen: set<string>, results: seq<Message>)
    requires |calls| <= limit && TurnSoFar(n, calls, |calls|, seen, results)
    ensures TurnOutcome(n, limit, calls, Completed(results))
  {
    assert calls[..|calls|] == calls;
  }

  /** Where a turn stands: its calls so far, and what the model is told of them. */
  ghost predicate TurnUnderway(run: Run, requested: seq<ToolCall>, round: nat, start: seq<Invocation>, now: seq<Invocation>,
                               k: nat, seen: set<string>, results: seq<Message>) {
    && k <= |requested| && CallsSoFar(requested, start, now, round, k)
    && TurnSoFar(run.naming, requested, k, seen, results) && AllTold(run.world, |start|, now, round, results)
  }

  lemma TurnMayStop(run: Run, requested: seq<ToolCall>, round: nat, start: seq<Invocation>, now: seq<Invocation>,
                    k: nat, seen: set<string>, results: seq<Message>)
    requires TurnUnderway(run, requested, round, start, now, k, seen, results) && k < |requested| && k <= run.limit
    ensures CallsSoFar(requested, start, now, round, run.limit)
    ensures k >= run.limit ==> TurnOutcome(run.naming, run.limit, requested, Stopped(TooManyCalls))
    ensures k < run.limit && run.naming.key(requested[k]) in seen ==>
              TurnOutcome(run.naming, run.limit, requested, Stopped(RepeatedCall))
  {
    CallsWithin(requested, start, now, round, k, run.limit);
    TurnStops(run.naming, run.limit, requested, k, seen, results);
  }

  lemma TurnContinues(run: Run, requested: seq<ToolCall>, round: nat, start: seq<Invocation>, before: seq<Invocation>,
                      now: seq<Invocation>, k: nat, seen: set<string>, results: seq<Message>, m: Message)
    requires TurnUnderway(run, requested, round, start, before, k, seen, results) && k < |requested|
    requires before <= now && CallsSoFar(requested, start, now, round, k + 1) && run.naming.key(requested[k]) !in seen
    requires Answers(run.naming, m, requested[k]) && Told(run.world, |start|, now, round, k, m)
    requires forall i :: 0 <= i < k ==> NotMade(|before|, now, round, i)
    ensures TurnUnderway(run, requested, round, start, now, k + 1, seen + {run.naming.key(requested[k])}, results + [m])
  {
    TurnGoesOn(run.naming, requested, k, seen, results, m);
    AllToldGrows(run.world, |start|, before, now, round, results, m);
  }

  lemma TurnIsComplete(run: Run, requested: seq<ToolCall>, round: nat, start: seq<Invocation>, now: seq<Invocation>,
                       seen: set<string>, results: seq<Message>)
    requires TurnUnderway(run, requested, round, start, now, |requested|, seen, results) && |requested| <= run.limit
    ensures CallsSoFar(requested, start, now, round, run.limit) && AllTold(run.world, |start|, now, round, results)
    ensures TurnOutcome(run.naming, run.limit, requested, Completed(results))
  {
    CallsWithin(requested, start, now, round, |requested|, run.limit);
    TurnEnds(run.naming, run.limit, requested, seen, results);
  }

  /** The calls of one round: numbered upwards, all below `limit`. */
  ghost predicate TurnCalls(calls: seq<Invocation>, round: nat, limit: nat) {
    && (forall i :: 0 <= i < |calls| ==> calls[i].round == round && calls[i].index < limit)
    && (forall i, j :: 0 <= i < j < |calls| ==> calls[i].index < calls[j].index)
  }

  /** `now` is `before` and then calls of this round, numbered below `k`. */
  ghost predicate TurnLogged(before: seq<Invocation>, now: seq<Invocation>, round: nat, k: nat) {
    before <= now && TurnCalls(now[|before|..], round, k)
  }

  /** The calls of the turn so far: numbered below `k`, and each as the model asked. */
  ghost predicate CallsSoFar(requested: seq<ToolCall>, before: seq<Invocation>, now: seq<Invocation>, round: nat, k: nat) {
    TurnLogged(before, now, round, k) && AllAskedFor(requested, before, now)
  }

  lemma CallsWithin(requested: seq<ToolCall>, before: seq<Invocation>, now: seq<Invocation>, round: nat, k: nat, limit: nat)
    requires CallsSoFar(requested, before, now, round, k) && k <= limit
    ensures CallsSoFar(requested, before, now, round, limit)
  {
  }

  lemma CallsGrow(requested: seq<ToolCall>, start: seq<Invocation>, before: seq<Invocation>, after: seq<Invocation>, round: nat, k: nat)
    requires CallsSoFar(requested, start, before, round, k)
    requires after == before || exists c :: after == before + [c] && c.round == round && c.index == k && AskedFor(requested, c)
    ensures CallsSoFar(requested, start, after, round, k + 1)
  {
    TurnGrows(start, before, after, round, k);
  }

  lemma TurnGrows(start: seq<Invocation>, before: seq<Invocation>, after: seq<Invocation>, round: nat, k: nat)
    requires TurnLogged(start, before, round, k)
    requires after == before || exists c :: after == before + [c] && c.round == round && c.index == k
    ensures TurnLogged(start, after, round, k + 1)
  {
  }
}
