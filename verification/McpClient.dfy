/** The client of an MCP server: numbered calls over a stream of messages. */
module McpClient {
  import opened Options
  import opened JsonRpc

  /** What a waiting call sees next: its context is done, the read error, or the
      message channel. */
  datatype Choice = Done | Failure | Channel

  datatype CallResult =
    | NotWritten
    | Abandoned
    | Closed
    | Refused(code: int)
    | Answered(result: Option<string>)

  function OutcomeOf(m: Message): CallResult {
    match m.error
    case Some(code) => Refused(code)
    case None => Answered(m.result)
  }

  class Client {
    var nextID: nat
    /** What was written, and what the message channel has yet to deliver before
        it is closed. */
    var sent: seq<Message>
    var incoming: seq<Message>

    constructor (incoming: seq<Message>)
      ensures nextID == 0 && sent == [] && this.incoming == incoming
    {
      nextID, sent, this.incoming := 0, [], incoming;
    }

    /** One call: it takes messages from the channel up to the first that answers
        it, and none of those it skips answers it. */
    method Call(method_: Method, params: string, writable: bool, pick: nat -> Choice)
        returns (r: CallResult, ghost taken: nat)
      modifies this
      ensures nextID == old(nextID) + 1
      ensures writable ==>
                && |sent| == |old(sent)| + 1 && old(sent) <= sent
                && sent[|old(sent)|] == Message(CallId(nextID), method_, params, None, None)
      ensures !writable ==> sent == old(sent)
      ensures taken <= |old(incoming)| && incoming == old(incoming)[taken..]
      ensures r.NotWritten? <==> !writable
      ensures r.NotWritten? ==> taken == 0
      ensures r.Refused? || r.Answered? ==>
                && 0 < taken && IsAnswer(old(incoming)[taken - 1], CallId(nextID))
                && (r.Refused? <==> old(incoming)[taken - 1].error.Some?)
                && (r.Refused? ==> r.code == old(incoming)[taken - 1].error.value)
                && (r.Answered? ==> r.result == old(incoming)[taken - 1].result)
                && forall j :: 0 <= j < taken - 1 ==> !IsAnswer(old(incoming)[j], CallId(nextID))
      ensures r.Abandoned? || r.Closed? ==> forall j :: 0 <= j < taken ==> !IsAnswer(old(incoming)[j], CallId(nextID))
    {
      nextID := nextID + 1;
      taken := 0;
      var id := CallId(nextID);
      if !writable {
        return NotWritten, taken;
      }
      sent := sent + [Message(id, method_, params, None, None)];
      var turn := 0;
      while true
        invariant nextID == old(nextID) + 1 && id == CallId(nextID)
        invariant sent == old(sent) + [Message(id, method_, params, None, None)]
        invariant taken <= |old(incoming)| && incoming == old(incoming)[taken..]
        invariant forall j :: 0 <= j < taken ==> !IsAnswer(old(incoming)[j], id)
        decreases |incoming|
      {
        match pick(turn)
        case Done =>
          return Abandoned, taken;
        case Failure =>
          return Closed, taken;
        case Channel =>
          if incoming == [] {
            return Closed, taken;
          }
          var message := incoming[0];
          incoming, taken, turn := incoming[1..], taken + 1, turn + 1;
          if IsAnswer(message, id) {
            return OutcomeOf(message), taken;
          }
      }
    }

    /** A notification carries no id and waits for nothing. */
    method Notify(method_: Method, params: string)
      modifies this`sent
      ensures sent == old(sent) + [Message("", method_, params, None, None)]
    {
      sent := sent + [Message("", method_, params, None, None)];
    }
  }

  // ----- The read loop

  datatype StreamEnd = EndOfFile | BadMessage(line: nat)

  /** The messages on the first `k` lines. */
  ghost function Messages(lines: seq<Line>, k: nat): seq<Message>
    requires k <= |lines|
  {
    if k == 0 then []
    else Messages(lines, k - 1) + if lines[k - 1].Decoded? then [lines[k - 1].message] else []
  }

  /** Delivers every message up to the first line that cannot be read. */
  method ReadLoop(decode: string -> Option<Message>, texts: seq<string>) returns (messages: seq<Message>, end: StreamEnd)
    ensures var stop := if end.BadMessage? then end.line else |texts|;
            && stop <= |texts| && messages == Messages(LinesOf(decode, texts), stop)
            && forall j :: 0 <= j < stop ==> !LineOf(decode, texts[j]).Malformed?
    ensures end.BadMessage? ==> end.line < |texts| && LineOf(decode, texts[end.line]).Malformed?
  {
    messages := [];
    for k := 0 to |texts|
      invariant messages == Messages(LinesOf(decode, texts), k)
      invariant forall j :: 0 <= j < k ==> !LineOf(decode, texts[j]).Malformed?
    {
      if |texts[k]| == 0 {
        continue;
      }
      var message := decode(texts[k]);
      if message.None? {
        return messages, BadMessage(k);
      }
      messages := messages + [message.value];
    }
    return messages, EndOfFile;
  }

  function Encoded(encode: Message -> string, ms: seq<Message>): seq<string> {
    seq(|ms|, i requires 0 <= i < |ms| => encode(ms[i]))
  }

  /** A stream of encoded messages is read back as those messages. */
  lemma {:induction false} StreamRoundTrip(encode: Message -> string, decode: string -> Option<Message>, ms: seq<Message>, k: nat)
    requires k <= |ms|
    requires forall i :: 0 <= i < |ms| ==> encode(ms[i]) != "" && decode(encode(ms[i])) == Some(ms[i])
    ensures Messages(LinesOf(decode, Encoded(encode, ms)), k) == ms[..k]
    ensures forall j :: 0 <= j < |ms| ==> LinesOf(decode, Encoded(encode, ms))[j] == Decoded(ms[j])
  {
    if k > 0 {
      StreamRoundTrip(encode, decode, ms, k - 1);
      assert LinesOf(decode, Encoded(encode, ms))[k - 1] == Decoded(ms[k - 1]);
    }
  }
}
