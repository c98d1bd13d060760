/** JSON-RPC messages, what a server answers, and a client and a server joined by
    in-order streams. */
module JsonRpc {
  import opened Options
  import opened GoStrings

  const ParseError := -32700
  const MethodNotFound := -32601
  const InternalError := -32603

  /** The methods the server knows: "initialize", "notifications/initialized",
      "notifications/cancelled", "ping", "tools/list" and "tools/call". */
  datatype Method = Initialize | Initialized | Cancelled | Ping | ListTools | CallTool | Other(name: string)

  /** One type for requests, notifications and responses.  The id is raw JSON
      text, empty where there is none. */
  datatype Message = Message(id: string, method_: Method, params: string, result: Option<string>, error: Option<int>)

  const NoMethod := Other("")

  /** What the server's operations yield as encoded JSON, `None` where encoding
      fails.  A tool's result may depend on when it is called: `k` is the number
      of the line that asks for it. */
  datatype Service = Service(
    handshake: Option<string>,
    pong: Option<string>,
    tools: Option<string>,
    callTool: (nat, string) -> Option<string>)

  /** `respondResult` on an id that is not empty. */
  function ResultReply(id: string, encoded: Option<string>): Message {
    match encoded
    case Some(text) => Message(id, NoMethod, "", encoded, None)
    case None => ErrorReply(id, InternalError)
  }

  /** `respondError`: a missing id is answered as null. */
  function ErrorReply(id: string, code: int): Message {
    Message(if id == "" then "null" else id, NoMethod, "", None, Some(code))
  }

  /** What the server says to the request on line `k`. */
  ghost function Respond(s: Service, k: nat, m: Message): Option<Message> {
    if m.method_.Initialized? || m.method_.Cancelled? || m.id == "" then None
    else match m.method_
      case Initialize => Some(ResultReply(m.id, s.handshake))
      case Ping => Some(ResultReply(m.id, s.pong))
      case ListTools => Some(ResultReply(m.id, s.tools))
      case CallTool => Some(ResultReply(m.id, s.callTool(k, m.params)))
      case Other(_) => Some(ErrorReply(m.id, MethodNotFound))
  }

  datatype Line = Blank | Malformed | Decoded(message: Message)

  /** What a line of text is to a reader. */
  function LineOf(decode: string -> Option<Message>, text: string): Line {
    if text == "" then Blank
    else match decode(text)
      case Some(m) => Decoded(m)
      case None => Malformed
  }

  function LinesOf(decode: string -> Option<Message>, texts: seq<string>): seq<Line> {
    seq(|texts|, i requires 0 <= i < |texts| => LineOf(decode, texts[i]))
  }

  ghost function LineReply(s: Service, k: nat, line: Line): Option<Message> {
    match line
    case Blank => None
    case Malformed => Some(ErrorReply("", ParseError))
    case Decoded(m) => Respond(s, k, m)
  }

  function Listed<T>(x: Option<T>): seq<T> {
    match x case Some(v) => [v] case None => []
  }

  /** Everything the server writes while it serves the first `k` lines. */
  ghost function Served(s: Service, lines: seq<Line>, k: nat): seq<Message>
    requires k <= |lines|
  {
    if k == 0 then [] else Served(s, lines, k - 1) + Listed(LineReply(s, k - 1, lines[k - 1]))
  }

  // ----- Section 5 of JSON-RPC 2.0

  /** A request that must be answered. */
  predicate WantsAnswer(m: Message) {
    m.id != "" && !m.method_.Initialized? && !m.method_.Cancelled?
  }

  /** The id an answer to this line must carry: the request's own id, or null where
      the request could not be read. */
  function DueId(line: Line): seq<string> {
    match line
    case Blank => []
    case Malformed => ["null"]
    case Decoded(m) => if WantsAnswer(m) then [m.id] else []
  }

  function DueIds(lines: seq<Line>, k: nat): seq<string>
    requires k <= |lines|
  {
    if k == 0 then [] else DueIds(lines, k - 1) + DueId(lines[k - 1])
  }

  function Ids(ms: seq<Message>): seq<string> {
    seq(|ms|, i requires 0 <= i < |ms| => ms[i].id)
  }

  /** A response has exactly one of result and error, and names no method. */
  predicate IsResponse(m: Message) {
    m.id != "" && m.method_ == NoMethod && (m.result.Some? <==> m.error.None?)
  }

  lemma LineAnswered(s: Service, k: nat, line: Line)
    ensures Ids(Listed(LineReply(s, k, line))) == DueId(line)
    ensures LineReply(s, k, line).Some? ==> IsResponse(LineReply(s, k, line).value)
  {
  }

  lemma IdsJoin(a: seq<Message>, b: seq<Message>)
    ensures Ids(a + b) == Ids(a) + Ids(b)
  {
  }

  /** Every request is answered once, in order, under its own id; notifications
      are never answered. */
  lemma {:induction false} AnsweredOnceInOrder(s: Service, lines: seq<Line>, k: nat)
    requires k <= |lines|
    ensures Ids(Served(s, lines, k)) == DueIds(lines, k)
    ensures forall i :: 0 <= i < |Served(s, lines, k)| ==> IsResponse(Served(s, lines, k)[i])
  {
    if k > 0 {
      AnsweredOnceInOrder(s, lines, k - 1);
      LineAnswered(s, k - 1, lines[k - 1]);
      IdsJoin(Served(s, lines, k - 1), Listed(LineReply(s, k - 1, lines[k - 1])));
    }
  }

  /** The answer to line `k` stands where the ids due before it end. */
  lemma {:induction false} AnswerStands(s: Service, lines: seq<Line>, n: nat, k: nat)
    requires k < n <= |lines| && LineReply(s, k, lines[k]).Some?
    ensures |DueIds(lines, k)| < |Served(s, lines, n)|
    ensures Served(s, lines, n)[|DueIds(lines, k)|] == LineReply(s, k, lines[k]).value
    decreases n
  {
    if k < n - 1 {
      AnswerStands(s, lines, n - 1, k);
    } else {
      AnsweredOnceInOrder(s, lines, k);
      assert |Ids(Served(s, lines, k))| == |Served(s, lines, k)|;
    }
  }

  lemma AnsweredIffWanted(s: Service, k: nat, m: Message)
    ensures Respond(s, k, m).Some? <==> WantsAnswer(m)
    ensures WantsAnswer(m) ==> Respond(s, k, m).value.id == m.id
    ensures WantsAnswer(m) ==>
              (Respond(s, k, m).value.error == Some(MethodNotFound) <==> m.method_.Other?)
  {
  }

  lemma {:induction false} ServedOfLonger(s: Service, lines: seq<Line>, more: seq<Line>, k: nat)
    requires k <= |lines|
    ensures Served(s, lines + more, k) == Served(s, lines, k)
  {
    if k > 0 {
      ServedOfLonger(s, lines, more, k - 1);
    }
  }

  /** Whatever was written answers some line. */
  lemma {:induction false} WhoAsked(s: Service, lines: seq<Line>, k: nat, m: Message) returns (at: nat)
    requires k <= |lines| && m in Served(s, lines, k)
    ensures at < k && LineReply(s, at, lines[at]) == Some(m)
  {
    if m in Served(s, lines, k - 1) {
      at := WhoAsked(s, lines, k - 1, m);
    } else {
      at := k - 1;
    }
  }

  lemma {:induction false} AnswerIsWritten(s: Service, lines: seq<Line>, k: nat, at: nat)
    requires at < k <= |lines| && LineReply(s, at, lines[at]).Some?
    ensures LineReply(s, at, lines[at]).value in Served(s, lines, k)
  {
    if at < k - 1 {
      AnswerIsWritten(s, lines, k - 1, at);
    }
  }

  // ----- A client and a server joined by streams

  const BufferSize := 8

  /** The id of the client's `n`-th call, a JSON string. */
  function CallId(n: nat): (id: string)
    ensures id != ""
  {
    "\"" + Itoa(n) + "\""
  }

  lemma CallIdsDiffer(m: nat, n: nat)
    requires CallId(m) == CallId(n)
    ensures m == n
  {
    assert Itoa(m) == CallId(m)[1..|CallId(m)| - 1];
    assert Itoa(n) == CallId(n)[1..|CallId(n)| - 1];
    ItoaInjective(m, n);
  }

  /** The client takes a message for the answer to the call with this id. */
  predicate IsAnswer(m: Message, id: string) {
    m.id != "" && m.id == id
  }

  /** The request a call waits for is line `at` of what the client has written. */
  datatype Phase = Idle | Waiting(at: nat)

  /** A call that succeeded: the line of its request and the message it got. */
  datatype Returned = Returned(at: nat, message: Message)

  /** `sent` is all the client has written, of which the server has read `served`
      lines; what the server wrote is in `stream`, in `buffer`, or `taken` by the
      client; `returned` are the calls that got an answer. */
  datatype State = State(
    nextID: nat,
    phase: Phase,
    sent: seq<Line>,
    served: nat,
    stream: seq<Message>,
    buffer: seq<Message>,
    taken: seq<Message>,
    returned: seq<Returned>)

  const Initial := State(0, Idle, [], 0, [], [], [], [])

  /** `Abandon` is a cancelled call or one that saw a read error, `FailedWrite` a
      call whose request could not be written. */
  datatype Action =
    | Call(method_: Method, params: string)
    | FailedWrite
    | Notify(method_: Method, params: string)
    | Abandon
    | Serve
    | Read
    | Receive

  ghost predicate Enabled(st: State, a: Action) {
    match a
    case Call(_, _) => st.phase.Idle?
    case FailedWrite => st.phase.Idle?
    case Notify(_, _) => st.phase.Idle?
    case Abandon => st.phase.Waiting?
    case Serve => st.served < |st.sent|
    case Read => st.stream != [] && |st.buffer| < BufferSize
    case Receive => st.phase.Waiting? && st.buffer != []
  }

  ghost predicate Received(st: State, m: Message) {
    && st.phase.Waiting? && st.phase.at < |st.sent| && st.sent[st.phase.at].Decoded?
    && IsAnswer(m, st.sent[st.phase.at].message.id)
  }

  ghost function Apply(s: Service, st: State, a: Action): State
    requires Enabled(st, a)
  {
    match a
    case Call(method_, params) =>
      st.(nextID := st.nextID + 1,
          phase := Waiting(|st.sent|),
          sent := st.sent + [Decoded(Message(CallId(st.nextID + 1), method_, params, None, None))])
    case FailedWrite => st.(nextID := st.nextID + 1)
    case Notify(method_, params) => st.(sent := st.sent + [Decoded(Message("", method_, params, None, None))])
    case Abandon => st.(phase := Idle)
    case Serve =>
      st.(served := st.served + 1, stream := st.stream + Listed(LineReply(s, st.served, st.sent[st.served])))
    case Read => st.(stream := st.stream[1..], buffer := st.buffer + [st.stream[0]])
    case Receive =>
      var m := st.buffer[0];
      var rest := st.(buffer := st.buffer[1..], taken := st.taken + [m]);
      if Received(st, m) then rest.(phase := Idle, returned := st.returned + [Returned(st.phase.at, m)])
      else rest
  }

  ghost predicate Legal(s: Service, st: State, run: seq<Action>)
    decreases |run|
  {
    run == [] || (Enabled(st, run[0]) && Legal(s, Apply(s, st, run[0]), run[1..]))
  }

  ghost function Exec(s: Service, st: State, run: seq<Action>): State
    requires Legal(s, st, run)
    decreases |run|
  {
    if run == [] then st else Exec(s, Apply(s, st, run[0]), run[1..])
  }

  ghost predicate Numbered(line: Line, bound: nat) {
    line.Decoded? && (line.message.id == "" || exists n :: 1 <= n <= bound && line.message.id == CallId(n))
  }

  /** The requests written so far carry different ids. */
  ghost predicate GoodLines(sent: seq<Line>, bound: nat) {
    && (forall i :: 0 <= i < |sent| ==> Numbered(sent[i], bound))
    && (forall i, j :: 0 <= i < j < |sent| && sent[i].Decoded? && sent[j].Decoded? && sent[j].message.id != "" ==>
          sent[i].message.id != sent[j].message.id)
  }

  ghost predicate NotTaken(taken: seq<Message>, id: string) {
    forall i :: 0 <= i < |taken| ==> taken[i].id != id
  }

  /** The call that is waiting has asked, and its answer is still on the way. */
  ghost predicate Pending(st: State) {
    st.phase.Waiting? ==>
      && st.phase.at < |st.sent| && st.sent[st.phase.at].Decoded?
      && st.sent[st.phase.at].message.id != "" && NotTaken(st.taken, st.sent[st.phase.at].message.id)
  }

  /** A call that succeeded got what the server said to that very request. */
  ghost predicate OwnAnswer(s: Service, sent: seq<Line>, r: Returned) {
    r.at < |sent| && LineReply(s, r.at, sent[r.at]) == Some(r.message)
  }

  ghost predicate OwnAnswers(s: Service, st: State) {
    && (forall i :: 0 <= i < |st.returned| ==> OwnAnswer(s, st.sent, st.returned[i]))
    && (forall i, j :: 0 <= i < j < |st.returned| ==> st.returned[i].at < st.returned[j].at)
    && (st.phase.Waiting? ==> forall i :: 0 <= i < |st.returned| ==> st.returned[i].at < st.phase.at)
  }

  ghost predicate Inv(s: Service, st: State) {
    && st.served <= |st.sent| && |st.buffer| <= BufferSize
    && st.taken + st.buffer + st.stream == Served(s, st.sent, st.served)
    && GoodLines(st.sent, st.nextID)
    && Pending(st) && OwnAnswers(s, st)
  }

  lemma GoodLinesGrow(sent: seq<Line>, bound: nat, m: Message)
    requires GoodLines(sent, bound) && (m.id == "" || m.id == CallId(bound + 1))
    ensures GoodLines(sent + [Decoded(m)], bound + 1)
    ensures m.id == "" ==> GoodLines(sent + [Decoded(m)], bound)
    ensures m.id != "" ==> forall i :: 0 <= i < |sent| && sent[i].Decoded? ==> sent[i].message.id != m.id
  {
    forall i | 0 <= i < |sent|
      ensures Numbered(sent[i], bound + 1) && (m.id != "" ==> sent[i].message.id != m.id)
    {
      assert Numbered(sent[i], bound);
      if m.id != "" && sent[i].message.id != "" {
        var n :| 1 <= n <= bound && sent[i].message.id == CallId(n);
        if sent[i].message.id == m.id {
          CallIdsDiffer(n, bound + 1);
        }
      }
    }
  }

  /** An id nobody has used is on no answer either. */
  lemma FreshIdNotTaken(s: Service, st: State, id: string)
    requires Inv(s, st) && id != ""
    requires forall i :: 0 <= i < |st.sent| && st.sent[i].Decoded? ==> st.sent[i].message.id != id
    ensures NotTaken(st.taken, id)
  {
    forall i | 0 <= i < |st.taken|
      ensures st.taken[i].id != id
    {
      assert st.taken[i] == (st.taken + st.buffer + st.stream)[i];
      var at := WhoAsked(s, st.sent, st.served, st.taken[i]);
      assert Numbered(st.sent[at], st.nextID);
      ReplyCarriesId(s, at, st.sent[at], st.taken[i]);
    }
  }

  lemma ReplyCarriesId(s: Service, k: nat, line: Line, m: Message)
    requires line.Decoded? && LineReply(s, k, line) == Some(m)
    ensures m.id == line.message.id != ""
  {
  }

  lemma OneLinePerId(sent: seq<Line>, bound: nat, i: nat, j: nat)
    requires GoodLines(sent, bound) && i < |sent| && j < |sent| && sent[i].Decoded? && sent[j].Decoded?
    requires sent[i].message.id == sent[j].message.id != ""
    ensures i == j
  {
  }

  /** The message a waiting call accepts is the server's answer to its request. */
  lemma AcceptedIsOwn(s: Service, st: State)
    requires Inv(s, st) && Enabled(st, Receive) && Received(st, st.buffer[0])
    ensures LineReply(s, st.phase.at, st.sent[st.phase.at]) == Some(st.buffer[0])
  {
    var m := st.buffer[0];
    assert m == (st.taken + st.buffer + st.stream)[|st.taken|];
    var at := WhoAsked(s, st.sent, st.served, m);
    assert Numbered(st.sent[at], st.nextID);
    ReplyCarriesId(s, at, st.sent[at], m);
    OneLinePerId(st.sent, st.nextID, at, st.phase.at);
  }

  lemma SendKeepsInv(s: Service, st: State, a: Action)
    requires Inv(s, st) && Enabled(st, a) && (a.Call? || a.Notify? || a.FailedWrite?)
    ensures Inv(s, Apply(s, st, a))
  {
    match a
    case Call(method_, params) =>
      var m := Message(CallId(st.nextID + 1), method_, params, None, None);
      GoodLinesGrow(st.sent, st.nextID, m);
      FreshIdNotTaken(s, st, m.id);
      ServedOfLonger(s, st.sent, [Decoded(m)], st.served);
    case Notify(method_, params) =>
      var m := Message("", method_, params, None, None);
      GoodLinesGrow(st.sent, st.nextID, m);
      ServedOfLonger(s, st.sent, [Decoded(m)], st.served);
    case FailedWrite =>
      forall i | 0 <= i < |st.sent|
        ensures Numbered(st.sent[i], st.nextID + 1)
      {
        assert Numbered(st.sent[i], st.nextID);
      }
  }

  lemma TakenInOrder(st: State)
    requires st.buffer != []
    ensures st.taken + [st.buffer[0]] + st.buffer[1..] + st.stream == st.taken + st.buffer + st.stream
  {
    assert st.buffer == [st.buffer[0]] + st.buffer[1..];
  }

  lemma ReceiveKeepsInv(s: Service, st: State)
    requires Inv(s, st) && Enabled(st, Receive)
    ensures Inv(s, Apply(s, st, Receive))
  {
    var after := Apply(s, st, Receive);
    TakenInOrder(st);
    if Received(st, st.buffer[0]) {
      AcceptedIsOwn(s, st);
      assert OwnAnswer(s, st.sent, Returned(st.phase.at, st.buffer[0]));
      assert OwnAnswers(s, after);
    } else {
      assert after.returned == st.returned && OwnAnswers(s, after);
    }
  }

  lemma JoinedAtEnd(a: seq<Message>, b: seq<Message>, c: seq<Message>, d: seq<Message>)
    ensures a + b + (c + d) == a + b + c + d
  {
  }

  lemma ReadInOrder(st: State)
    requires st.stream != []
    ensures st.taken + (st.buffer + [st.stream[0]]) + st.stream[1..] == st.taken + st.buffer + st.stream
  {
    assert st.stream == [st.stream[0]] + st.stream[1..];
  }

  lemma StepKeepsInv(s: Service, st: State, a: Action)
    requires Inv(s, st) && Enabled(st, a)
    ensures Inv(s, Apply(s, st, a))
  {
    match a
    case Call(_, _) => SendKeepsInv(s, st, a);
    case FailedWrite => SendKeepsInv(s, st, a);
    case Notify(_, _) => SendKeepsInv(s, st, a);
    case Abandon =>
    case Serve =>
      JoinedAtEnd(st.taken, st.buffer, st.stream, Listed(LineReply(s, st.served, st.sent[st.served])));
    case Read =>
      ReadInOrder(st);
    case Receive => ReceiveKeepsInv(s, st);
  }

  lemma {:induction false} RunKeepsInv(s: Service, st: State, run: seq<Action>)
    requires Inv(s, st) && Legal(s, st, run)
    ensures Inv(s, Exec(s, st, run))
    decreases |run|
  {
    if run != [] {
      StepKeepsInv(s, st, run[0]);
      RunKeepsInv(s, Apply(s, st, run[0]), run[1..]);
    }
  }

  /** In every run, with any calls abandoned on the way, every call that succeeds
      gets what the server said to that same request, and no answer twice. */
  lemma CallsGetTheirOwnAnswers(s: Service, run: seq<Action>)
    requires Legal(s, Initial, run)
    ensures var end := Exec(s, Initial, run);
            && (forall i :: 0 <= i < |end.returned| ==> OwnAnswer(s, end.sent, end.returned[i]))
            && (forall i, j :: 0 <= i < j < |end.returned| ==> end.returned[i].at < end.returned[j].at)
  {
    assert Inv(s, Initial);
    RunKeepsInv(s, Initial, run);
  }

  // ----- A call that is answered returns

  /** The call waits for an answer that has not been received. */
  ghost predicate Expecting(s: Service, st: State) {
    Inv(s, st) && st.phase.Waiting? && WantsAnswer(st.sent[st.phase.at].message)
  }

  ghost function NextStep(st: State): Action {
    if st.buffer != [] then Receive else if st.stream != [] then Read else Serve
  }

  ghost function Distance(st: State): int {
    3 * (|st.sent| - st.served) + 2 * |st.stream| + |st.buffer|
  }

  lemma NextStepEnabled(s: Service, st: State)
    requires Expecting(s, st)
    ensures Enabled(st, NextStep(st))
    ensures 0 <= Distance(Apply(s, st, NextStep(st))) < Distance(st)
  {
    if st.buffer == [] && st.stream == [] && st.phase.at < st.served {
      AnsweredIffWanted(s, st.phase.at, st.sent[st.phase.at].message);
      AnswerIsWritten(s, st.sent, st.served, st.phase.at);
    }
    StepKeepsInv(s, st, NextStep(st));
  }

  /** Whatever is still queued from abandoned calls, a waiting call whose request
      wants an answer can get it, with steps of the streams and its own only. */
  lemma {:induction false} CallCanReturn(s: Service, st: State) returns (run: seq<Action>)
    requires Expecting(s, st)
    ensures Legal(s, st, run) && Exec(s, st, run).phase.Idle?
    ensures var request := st.sent[st.phase.at].message;
            Exec(s, st, run).returned == st.returned + [Returned(st.phase.at, Respond(s, st.phase.at, request).value)]
    decreases Distance(st)
  {
    NextStepEnabled(s, st);
    StepKeepsInv(s, st, NextStep(st));
    var a, next := NextStep(st), Apply(s, st, NextStep(st));
    if next.phase.Idle? {
      AcceptedIsOwn(s, st);
      run := [a];
      assert Legal(s, next, run[1..]);
    } else {
      var rest := CallCanReturn(s, next);
      run := [a] + rest;
      assert run[1..] == rest;
    }
  }

  /** A request that wants no answer never gets one: its call can only be abandoned. */
  lemma NotificationsNeverReturn(s: Service, st: State, a: Action)
    requires Inv(s, st) && st.phase.Waiting? && !WantsAnswer(st.sent[st.phase.at].message) && Enabled(st, a)
    ensures Apply(s, st, a).phase == st.phase || a == Abandon
  {
    if a == Receive && Received(st, st.buffer[0]) {
      AcceptedIsOwn(s, st);
      AnsweredIffWanted(s, st.phase.at, st.sent[st.phase.at].message);
    }
  }
}
