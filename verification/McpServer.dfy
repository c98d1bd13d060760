/** The MCP server: it reads lines, runs tools whose arguments their schema
    accepts, and writes responses. */
module McpServer {
  import opened Options
  import opened GoValues
  import opened JsonRpc
  import JsonSchema
  import SchemaOrder

  /** Error categories a tool result can carry. */
  datatype Category = InvalidArguments | UnknownTool | Timeout | Other(name: string)

  /** How a tool ran: its output, or its own result body, or an error; an error
      is a timeout when the deadline had passed. */
  datatype ToolOutcome =
    | Ran(output: string, truncated: bool)
    | RanWithBody(body: string)
    | Broke(category: Category, late: bool)

  datatype ToolAnswer = Failure(category: Category) | Output(text: string, truncated: bool) | Body(body: string)

  /** Everything outside the server. `ended(k)` says whether the context has ended
      when line `k` is read, `run(k, …)` how a tool runs that line `k` asks for. */
  datatype World = World(
    decode: string -> Option<Message>,
    ended: nat -> bool,
    decodeCall: string -> Option<(string, string)>,
    decodeArguments: string -> Option<Fields>,
    order: JsonSchema.Order,
    run: (nat, string, Fields) -> ToolOutcome,
    encode: ToolAnswer -> Option<string>,
    handshake: Option<string>,
    pong: Option<string>,
    toolList: Option<string>)

  /** The arguments of a tool call, if its parameters and they can be read. */
  function ArgumentsOf(w: World, params: string): Option<(string, Option<Fields>)> {
    match w.decodeCall(params)
    case Some((name, raw)) => Some((name, w.decodeArguments(raw)))
    case None => None
  }

  /** The call reaches a tool: the tool exists and its schema accepts the arguments. */
  ghost predicate Admitted(w: World, tools: map<string, Value>, params: string)
    requires forall name :: name in tools ==> tools[name].Object?
  {
    match ArgumentsOf(w, params)
    case Some((name, Some(arguments))) =>
      name in tools && JsonSchema.Accepts(false, tools[name], Object(arguments))
    case _ => false
  }

  /** The part of a tool's result that is returned. */
  function AnswerOf(outcome: ToolOutcome, limit: nat): ToolAnswer {
    match outcome
    case Ran(output, truncated) =>
      if |output| <= limit then Output(output, truncated) else Output(output[..limit], true)
    case RanWithBody(body) => Body(body)
    case Broke(category, late) => Failure(if late then Timeout else category)
  }

  /** What a tool call is answered with. */
  ghost function CallAnswer(w: World, tools: map<string, Value>, limit: nat, k: nat, params: string): ToolAnswer
    requires forall name :: name in tools ==> tools[name].Object?
  {
    match ArgumentsOf(w, params)
    case None => Failure(InvalidArguments)
    case Some((name, arguments)) =>
      if name !in tools then Failure(UnknownTool)
      else if Admitted(w, tools, params) then AnswerOf(w.run(k, name, arguments.value), limit)
      else Failure(InvalidArguments)
  }

  /** A tool's plain output is returned up to the limit, and marked when it was cut. */
  lemma OutputIsBounded(outcome: ToolOutcome, limit: nat)
    requires outcome.Ran?
    ensures var r := AnswerOf(outcome, limit);
            && r.Output? && r.text <= outcome.output && |r.text| == (if |outcome.output| <= limit then |outcome.output| else limit)
            && (r.truncated <==> outcome.truncated || r.text != outcome.output)
  {
  }

  // ----- What a response must say

  /** The response carries the encoded result, or an internal error where there is none. */
  predicate Carries(reply: Message, encoded: Option<string>) {
    match encoded
    case Some(text) => reply.result == Some(text) && reply.error == None
    case None => reply.result == None && reply.error == Some(-32603)
  }

  /** The tool ran, and this is what its caller is told. */
  predicate Tells(outcome: ToolOutcome, limit: nat, answer: ToolAnswer) {
    match outcome
    case Ran(output, truncated) =>
      && answer.Output? && answer.text == output[..if |output| <= limit then |output| else limit]
      && (answer.truncated <==> truncated || |output| > limit)
    case RanWithBody(body) => answer == Body(body)
    case Broke(_, true) => answer == Failure(Timeout)
    case Broke(category, false) => answer == Failure(category)
  }

  /** The answer to a tool call: an unknown tool, bad parameters, arguments the schema
      does not accept, or what the tool said in this very call. */
  ghost predicate CallAnswered(w: World, tools: map<string, Value>, limit: nat, k: nat, params: string, answer: ToolAnswer)
    requires GoodTools(tools)
  {
    match w.decodeCall(params)
    case None => answer == Failure(InvalidArguments)
    case Some((name, raw)) =>
      if name !in tools then answer == Failure(UnknownTool)
      else match w.decodeArguments(raw)
        case None => answer == Failure(InvalidArguments)
        case Some(arguments) =>
          if JsonSchema.Accepts(false, tools[name], Object(arguments)) then Tells(w.run(k, name, arguments), limit, answer)
          else answer == Failure(InvalidArguments)
  }

  /** The right response to a request of line `k` that carries an id. */
  ghost predicate RightResponse(w: World, tools: map<string, Value>, limit: nat, k: nat, m: Message, reply: Message)
    requires GoodTools(tools)
  {
    && reply.id == m.id
    && match m.method_
       case Initialize => Carries(reply, w.handshake)
       case Ping => Carries(reply, w.pong)
       case ListTools => Carries(reply, w.toolList)
       case CallTool => exists answer :: CallAnswered(w, tools, limit, k, m.params, answer) && Carries(reply, w.encode(answer))
       case Other(_) => reply.result == None && reply.error == Some(-32601)
       case _ => false
  }

  /** The right response at the place of each of the first `n` lines that is due one. */
  ghost predicate AllRight(w: World, tools: map<string, Value>, limit: nat, texts: seq<string>, n: nat, responses: seq<Message>)
    requires GoodTools(tools) && n <= |texts|
  {
    forall k :: 0 <= k < n ==> RightAtLine(w, tools, limit, texts, k, responses)
  }

  ghost predicate RightAtLine(w: World, tools: map<string, Value>, limit: nat, texts: seq<string>, k: nat, responses: seq<Message>)
    requires GoodTools(tools) && k < |texts|
  {
    var place := |DueIds(LinesOf(w.decode, texts), k)|;
    texts[k] != "" ==>
      match w.decode(texts[k])
      case None =>
        place < |responses| && responses[place].id == "null" && responses[place].result == None && responses[place].error == Some(-32700)
      case Some(m) =>
        m.id != "" && !m.method_.Initialized? && !m.method_.Cancelled? ==>
          place < |responses| && RightResponse(w, tools, limit, k, m, responses[place])
  }

  lemma CallAnswerIsRight(w: World, tools: map<string, Value>, limit: nat, k: nat, params: string)
    requires GoodTools(tools)
    ensures CallAnswered(w, tools, limit, k, params, CallAnswer(w, tools, limit, k, params))
  {
  }

  lemma ResponseIsRight(w: World, tools: map<string, Value>, limit: nat, k: nat, m: Message)
    requires GoodTools(tools) && m.id != "" && !m.method_.Initialized? && !m.method_.Cancelled?
    ensures Respond(ServiceOf(w, tools, limit), k, m).Some?
    ensures RightResponse(w, tools, limit, k, m, Respond(ServiceOf(w, tools, limit), k, m).value)
  {
    CallAnswerIsRight(w, tools, limit, k, m.params);
  }

  /** Every response the server writes is the right one, at its place. */
  lemma ResponsesAreRight(w: World, tools: map<string, Value>, limit: nat, texts: seq<string>, n: nat)
    requires GoodTools(tools) && n <= |texts|
    ensures AllRight(w, tools, limit, texts, n, Served(ServiceOf(w, tools, limit), LinesOf(w.decode, texts), n))
  {
    var s, lines := ServiceOf(w, tools, limit), LinesOf(w.decode, texts);
    forall k | 0 <= k < n
      ensures RightAtLine(w, tools, limit, texts, k, Served(s, lines, n))
    {
      assert lines[k] == LineOf(w.decode, texts[k]);
      if LineReply(s, k, lines[k]).Some? {
        AnswerStands(s, lines, n, k);
      }
      if lines[k].Decoded? && WantsAnswer(lines[k].message) {
        ResponseIsRight(w, tools, limit, k, lines[k].message);
      }
    }
  }

  datatype ToolRun = ToolRun(name: string, arguments: Fields)

  /** What a tool call runs: its tool on its arguments if it is admitted. */
  ghost function RunBy(w: World, tools: map<string, Value>, params: string): seq<ToolRun>
    requires GoodTools(tools)
  {
    if !Admitted(w, tools, params) then []
    else var (name, arguments) := ArgumentsOf(w, params).value; [ToolRun(name, arguments.value)]
  }

  class Server {
    const world: World
    const tools: map<string, Value>
    const limit: nat
    var initialized: bool
    /** The responses written and the tools run so far. */
    var output: seq<Message>
    var runs: seq<ToolRun>

    constructor (world: World, tools: map<string, Value>, limit: nat)
      requires GoodTools(tools) && JsonSchema.IsOrder(world.order)
      ensures Valid() && output == [] && runs == [] && !initialized
      ensures this.world == world && this.tools == tools && this.limit == limit
    {
      this.world, this.tools, this.limit := world, tools, limit;
      initialized, output, runs := false, [], [];
    }

    /** Every tool that was run exists, and its schema accepted the arguments. */
    ghost predicate Valid()
      reads this
    {
      && GoodTools(tools) && JsonSchema.IsOrder(world.order)
      && AllSound(runs)
    }

    ghost predicate AllSound(made: seq<ToolRun>)
      requires GoodTools(tools)
    {
      forall i :: 0 <= i < |made| ==> Sound(made[i])
    }

    ghost predicate Sound(run: ToolRun)
      requires GoodTools(tools)
    {
      run.name in tools && JsonSchema.Accepts(false, tools[run.name], Object(run.arguments))
    }

    ghost function TheService(): Service
      requires GoodTools(tools)
    {
      ServiceOf(world, tools, limit)
    }

    /** One tool call: the tool is run exactly when the call is admitted. */
    method CallTool(k: nat, params: string) returns (r: ToolAnswer)
      requires Valid()
      modifies this`runs
      ensures Valid() && r == CallAnswer(world, tools, limit, k, params)
      ensures runs == old(runs) + RunBy(world, tools, params)
    {
      var call := world.decodeCall(params);
      if call.None? {
        return Failure(InvalidArguments);
      }
      var (name, raw) := call.value;
      if name !in tools {
        return Failure(UnknownTool);
      }
      var arguments := world.decodeArguments(raw);
      if arguments.None? {
        return Failure(InvalidArguments);
      }
      SchemaOrder.OrderDoesNotMatter(world.order, tools[name], Object(arguments.value));
      var verdict := JsonSchema.Validate(world.order, tools[name], Object(arguments.value), []);
      if !verdict.Accepted? {
        return Failure(InvalidArguments);
      }
      runs := runs + [ToolRun(name, arguments.value)];
      return AnswerOf(world.run(k, name, arguments.value), limit);
    }

    method RespondError(id: string, code: int)
      modifies this`output
      ensures output == old(output) + [ErrorReply(id, code)]
    {
      var target := id;
      if |target| == 0 {
        target := "null";
      }
      output := output + [Message(target, NoMethod, "", None, Some(code))];
    }

    method RespondResult(id: string, encoded: Option<string>)
      modifies this`output
      ensures output == old(output) + if id == "" then [] else [ResultReply(id, encoded)]
    {
      if |id| == 0 {
        return;
      }
      if encoded.None? {
        RespondError(id, InternalError);
        return;
      }
      output := output + [Message(id, NoMethod, "", encoded, None)];
    }

    /** One request of line `k`. */
    method Dispatch(k: nat, request: Message)
      requires Valid()
      modifies this
      ensures Valid() && old(runs) <= runs
      ensures output == old(output) + Listed(Respond(TheService(), k, request))
      ensures initialized == (old(initialized) || request.method_.Initialize?)
      ensures request.id == "" ==> runs == old(runs)
    {
      var isNotification := |request.id| == 0;
      match request.method_
      case Initialize =>
        initialized := true;
        RespondResult(request.id, world.handshake);
      case Initialized =>
      case Cancelled =>
      case Ping =>
        RespondResult(request.id, world.pong);
      case ListTools =>
        RespondResult(request.id, world.toolList);
      case CallTool =>
        if isNotification {
          return;
        }
        var answer := CallTool(k, request.params);
        RespondResult(request.id, world.encode(answer));
      case Other(_) =>
        if isNotification {
          return;
        }
        RespondError(request.id, MethodNotFound);
    }

    /** One line of the stream. */
    method ServeLine(k: nat, text: string)
      requires Valid()
      modifies this
      ensures Valid() && old(runs) <= runs
      ensures output == old(output) + Listed(LineReply(TheService(), k, LineOf(world.decode, text)))
      ensures initialized == (old(initialized) || Opens(LineOf(world.decode, text)))
    {
      if |text| == 0 {
        return;
      }
      var request := world.decode(text);
      if request.None? {
        RespondError("", ParseError);
        return;
      }
      Dispatch(k, request.value);
    }

    /** Serves the lines of a stream until its context ends. */
    method Serve(texts: seq<string>) returns (ghost served: nat)
      requires Valid()
      modifies this
      ensures Valid() && old(runs) <= runs
      ensures served <= |texts| && (served < |texts| ==> world.ended(served))
      ensures forall k :: 0 <= k < served ==> !world.ended(k)
      ensures output == old(output) + Served(TheService(), LinesOf(world.decode, texts), served)
      ensures AllRight(world, tools, limit, texts, served, output[|old(output)|..])
      ensures initialized == (old(initialized) || Opened(LinesOf(world.decode, texts), served))
    {
      ghost var service, lines := TheService(), LinesOf(world.decode, texts);
      for k := 0 to |texts|
        invariant Valid() && old(runs) <= runs
        invariant forall j :: 0 <= j < k ==> !world.ended(j)
        invariant Progress(service, lines, k, old(output), output, old(initialized), initialized)
      {
        if world.ended(k) {
          ResponsesAreRight(world, tools, limit, texts, k);
          return k;
        }
        ServedOneMore(service, lines, k, old(output), output, old(initialized), initialized);
        ServeLine(k, texts[k]);
      }
      ResponsesAreRight(world, tools, limit, texts, |texts|);
      return |texts|;
    }
  }

  /** Tools have object schemas whose enumerations list scalars. */
  ghost predicate GoodTools(tools: map<string, Value>) {
    forall name :: name in tools ==> tools[name].Object? && JsonSchema.ScalarEnums(tools[name])
  }

  ghost function ServiceOf(w: World, tools: map<string, Value>, limit: nat): Service
    requires GoodTools(tools)
  {
    Service(w.handshake, w.pong, w.toolList, (k: nat, params: string) => w.encode(CallAnswer(w, tools, limit, k, params)))
  }

  /** What a server that started with `before` and `ready` has after `k` lines. */
  ghost predicate Progress(s: Service, lines: seq<Line>, k: nat, before: seq<Message>, output: seq<Message>, ready: bool, readyNow: bool)
    requires k <= |lines|
  {
    output == before + Served(s, lines, k) && readyNow == (ready || Opened(lines, k))
  }

  lemma ServedOneMore(s: Service, lines: seq<Line>, k: nat, before: seq<Message>, output: seq<Message>, ready: bool, readyNow: bool)
    requires k < |lines| && Progress(s, lines, k, before, output, ready, readyNow)
    ensures Progress(s, lines, k + 1, before, output + Listed(LineReply(s, k, lines[k])), ready, readyNow || Opens(lines[k]))
  {
  }

  ghost predicate Opens(line: Line) {
    line.Decoded? && line.message.method_.Initialize?
  }

  /** One of the first `k` lines opens the session. */
  ghost predicate Opened(lines: seq<Line>, k: nat)
    requires k <= |lines|
  {
    k > 0 && (Opened(lines, k - 1) || Opens(lines[k - 1]))
  }
}
