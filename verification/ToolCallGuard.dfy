/** The proxy's guard on a chat completion: at most `max` tool calls in one
    assistant turn and, when asked for, no repeated call. */
module ToolCallGuard {
  import opened GoStrings
  import opened GoValues
  import opened Options

  /** Two calls with the same key ask for the same thing. */
  function ToolCallKey(call: Value): string {
    var function_ := if call.Object? then Get(call.fields, "function") else Nil;
    var fields := if function_.Object? then function_.fields else map[];
    StringOr(Get(fields, "name")) + "\n" + TrimSpace(StringOr(Get(fields, "arguments")))
  }

  /** The text at `key` in the call's function, "" where there is none. */
  ghost predicate FunctionText(call: Value, key: string, text: string) {
    if call.Object? && "function" in call.fields && call.fields["function"].Object? &&
       key in call.fields["function"].fields && call.fields["function"].fields[key].Str?
    then text == call.fields["function"].fields[key].s
    else text == ""
  }

  /** Calls of functions whose names hold no newline share a key exactly when they have
      the same name and the same arguments up to white space at the ends. */
  lemma SameToolCallKeyIff(a: Value, b: Value, nameA: string, argsA: string, nameB: string, argsB: string)
    requires FunctionText(a, "name", nameA) && FunctionText(a, "arguments", argsA)
    requires FunctionText(b, "name", nameB) && FunctionText(b, "arguments", argsB)
    requires '\n' !in nameA && '\n' !in nameB
    ensures ToolCallKey(a) == ToolCallKey(b) <==> nameA == nameB && TrimSpace(argsA) == TrimSpace(argsB)
  {
    SeparatedParts('\n', nameA, TrimSpace(argsA), nameB, TrimSpace(argsB));
  }

  // ----- Which calls the guard keeps

  /** How many of the first `n` entries are JSON objects. */
  ghost function WellFormed(calls: seq<Value>, n: nat): nat
    requires n <= |calls|
  {
    if n == 0 then 0 else WellFormed(calls, n - 1) + if calls[n - 1].Object? then 1 else 0
  }

  /** The keys of the well-formed calls among the first `n`. */
  ghost function Keys(key: Value -> string, calls: seq<Value>, n: nat): set<string>
    requires n <= |calls|
  {
    if n == 0 then {}
    else if calls[n - 1].Object? then Keys(key, calls, n - 1) + {key(calls[n - 1])}
    else Keys(key, calls, n - 1)
  }

  /** The calls among the first `n` that the guard may keep: the well-formed
      ones, and with `dedup` only the first of each key. */
  ghost function Eligible(key: Value -> string, dedup: bool, calls: seq<Value>, n: nat): seq<Value>
    requires n <= |calls|
  {
    if n == 0 then []
    else
      var call := calls[n - 1];
      if call.Object? && !(dedup && key(call) in Keys(key, calls, n - 1))
      then Eligible(key, dedup, calls, n - 1) + [call]
      else Eligible(key, dedup, calls, n - 1)
  }

  /** The first `max` eligible calls. */
  ghost function Kept(key: Value -> string, max: nat, dedup: bool, calls: seq<Value>): seq<Value> {
    var all := Eligible(key, dedup, calls, |calls|);
    if |all| <= max then all else all[..max]
  }

  /** A well-formed call turns up when `max` calls are kept already. */
  ghost predicate OverLimit(key: Value -> string, max: nat, dedup: bool, calls: seq<Value>) {
    exists i :: 0 <= i < |calls| && calls[i].Object? && |Eligible(key, dedup, calls, i)| >= max
  }

  // ----- The response

  datatype Reason = NoReason | LimitReached | DuplicateCall

  function ReasonText(reason: Reason, max: nat): string {
    match reason
    case NoReason => ""
    case LimitReached => "partial completion: limited to " + Itoa(max) + " tool calls per assistant turn"
    case DuplicateCall => "partial completion: duplicate tool call detected in the same assistant turn"
  }

  /** The parts of a response that lead to its tool calls. */
  datatype Site = Site(payload: Fields, choices: seq<Value>, choice: Fields, message: Fields, calls: seq<Value>)

  function Locate(payload: Value): (r: Option<Site>)
    ensures r.Some? ==> payload == Object(r.value.payload) && r.value.choices != [] && r.value.calls != []
  {
    if !payload.Object? then None else
    var choices := Get(payload.fields, "choices");
    if !choices.List? || choices.items == [] then None else
    var choice := choices.items[0];
    if !choice.Object? then None else
    var message := Get(choice.fields, "message");
    if !message.Object? then None else
    var calls := Get(message.fields, "tool_calls");
    if !calls.List? || calls.items == [] then None else
    Some(Site(payload.fields, choices.items, choice.fields, message.fields, calls.items))
  }

  /** The site is where a client of the response finds the calls: the first choice's
      message. */
  ghost predicate CallsAt(payload: Value, site: Site) {
    && payload == Object(site.payload)
    && Get(site.payload, "choices") == List(site.choices) && site.choices != []
    && site.choices[0] == Object(site.choice)
    && Get(site.choice, "message") == Object(site.message)
    && Get(site.message, "tool_calls") == List(site.calls) && site.calls != []
  }

  lemma LocateIs(payload: Value, site: Site)
    ensures Locate(payload) == Some(site) <==> CallsAt(payload, site)
  {
  }

  /** Writes a new message and finish reason back into the response. */
  function Replace(site: Site, message: Fields, finish: string): Value
    requires site.choices != []
  {
    var choice := site.choice["message" := Object(message)]["finish_reason" := Str(finish)];
    Object(site.payload["choices" := List(site.choices[0 := Object(choice)])])
  }

  function Note(content: string, reason: string): string {
    if TrimSpace(content) == "" then reason + ". Continuing with the remaining distinct tool calls."
    else TrimSpace(content) + "\n\n" + reason + ". Continuing with the remaining distinct tool calls."
  }

  function Rewrite(site: Site, kept: seq<Value>, reason: string): Value
    requires site.choices != []
  {
    if kept == [] then
      Replace(site, (site.message - {"tool_calls"})["content" := Str(reason + ". Retry with a narrower request.")], "stop")
    else
      var message := site.message["tool_calls" := List(kept)];
      Replace(site, message["content" := Str(Note(StringOr(Get(message, "content")), reason))], "tool_calls")
  }

  /** The guarded response, and whether it differs from the one received. */
  ghost function Guarded(max: nat, dedup: bool, payload: Value): (r: (Value, bool)) {
    match Locate(payload)
    case None => (payload, false)
    case Some(site) =>
      var kept := Kept(ToolCallKey, max, dedup, site.calls);
      if |kept| == WellFormed(site.calls, |site.calls|) then (payload, false)
      else
        var reason := if OverLimit(ToolCallKey, max, dedup, site.calls) then LimitReached else DuplicateCall;
        (Rewrite(site, kept, ReasonText(reason, max)), true)
  }

  // ----- Facts about the kept calls

  /** As more calls are seen, the eligible ones only grow, and no faster than
      the well-formed ones. */
  lemma {:induction false} EligibleGrows(key: Value -> string, dedup: bool, calls: seq<Value>, i: nat, j: nat)
    requires i <= j <= |calls|
    ensures Eligible(key, dedup, calls, i) <= Eligible(key, dedup, calls, j)
    ensures |Eligible(key, dedup, calls, j)| - |Eligible(key, dedup, calls, i)| <= WellFormed(calls, j) - WellFormed(calls, i)
    decreases j - i
  {
    if i < j {
      EligibleGrows(key, dedup, calls, i, j - 1);
    }
  }

  lemma PrefixIsTaken<T>(a: seq<T>, b: seq<T>)
    requires a <= b
    ensures (if |b| <= |a| then b else b[..|a|]) == a
  {
  }

  /** A well-formed call over the limit is dropped, and so is all that follows. */
  lemma OverLimitDrops(key: Value -> string, max: nat, dedup: bool, calls: seq<Value>, i: nat)
    requires i < |calls| && calls[i].Object? && |Eligible(key, dedup, calls, i)| == max
    ensures Kept(key, max, dedup, calls) == Eligible(key, dedup, calls, i)
    ensures max < WellFormed(calls, |calls|)
  {
    EligibleGrows(key, dedup, calls, 0, i);
    EligibleGrows(key, dedup, calls, i, |calls|);
    EligibleGrows(key, dedup, calls, i + 1, |calls|);
    PrefixIsTaken(Eligible(key, dedup, calls, i), Eligible(key, dedup, calls, |calls|));
  }

  lemma {:induction false} KeysOfCalls(key: Value -> string, calls: seq<Value>, n: nat)
    requires n <= |calls|
    ensures forall k :: k in Keys(key, calls, n) <==> exists i :: 0 <= i < n && calls[i].Object? && key(calls[i]) == k
    ensures Keys(key, calls, n) != {} <==> WellFormed(calls, n) > 0
  {
    if n > 0 {
      KeysOfCalls(key, calls, n - 1);
    }
  }

  lemma {:induction false} EligibleSound(key: Value -> string, dedup: bool, calls: seq<Value>, n: nat)
    requires n <= |calls|
    ensures var e := Eligible(key, dedup, calls, n);
            && (forall c :: c in e ==> c.Object? && c in calls[..n])
            && (dedup ==> forall i, j :: 0 <= i < j < |e| ==> key(e[i]) != key(e[j]))
            && (WellFormed(calls, n) > 0 ==> e != [])
            && |e| <= WellFormed(calls, n)
  {
    if n > 0 {
      EligibleSound(key, dedup, calls, n - 1);
      KeysOfCalls(key, calls, n - 1);
      var e, call := Eligible(key, dedup, calls, n - 1), calls[n - 1];
      if dedup && call.Object? && key(call) !in Keys(key, calls, n - 1) {
        forall i | 0 <= i < |e|
          ensures key(e[i]) != key(call)
        {
          assert e[i] in calls[..n - 1];
        }
      }
    }
  }

  /** The well-formed call `k` is represented: by itself, or with `dedup` by an eligible
      call no later than itself that has its key. */
  ghost predicate Represented(key: Value -> string, dedup: bool, calls: seq<Value>, pos: seq<nat>, k: nat)
    requires k < |calls| && forall i :: 0 <= i < |pos| ==> pos[i] < |calls|
  {
    exists i :: 0 <= i < |pos| && pos[i] <= k && if dedup then key(calls[pos[i]]) == key(calls[k]) else pos[i] == k
  }

  /** The calls `e` stand at the positions `pos`, in order, among the first `n`. */
  ghost predicate StandAt(calls: seq<Value>, n: nat, e: seq<Value>, pos: seq<nat>) {
    && n <= |calls| && |pos| == |e|
    && (forall i, j :: 0 <= i < j < |pos| ==> pos[i] < pos[j])
    && (forall i :: 0 <= i < |pos| ==> pos[i] < n && calls[pos[i]].Object? && e[i] == calls[pos[i]])
  }

  ghost predicate AllRepresented(key: Value -> string, dedup: bool, calls: seq<Value>, pos: seq<nat>, n: nat) {
    && n <= |calls| && (forall i :: 0 <= i < |pos| ==> pos[i] < |calls|)
    && forall k :: 0 <= k < n && calls[k].Object? ==> Represented(key, dedup, calls, pos, k)
  }

  lemma StandsLast(calls: seq<Value>, n: nat, e: seq<Value>, pos: seq<nat>)
    requires n < |calls| && StandAt(calls, n, e, pos) && calls[n].Object?
    ensures StandAt(calls, n + 1, e + [calls[n]], pos + [n])
  {
  }

  lemma OneMoreRepresented(key: Value -> string, dedup: bool, calls: seq<Value>, pos: seq<nat>, n: nat)
    requires n < |calls| && AllRepresented(key, dedup, calls, pos, n)
    ensures AllRepresented(key, dedup, calls, pos + [n], n + 1)
  {
    forall k | 0 <= k < n + 1 && calls[k].Object?
      ensures Represented(key, dedup, calls, pos + [n], k)
    {
      if k < n {
        var i :| 0 <= i < |pos| && pos[i] <= k && if dedup then key(calls[pos[i]]) == key(calls[k]) else pos[i] == k;
        assert (pos + [n])[i] == pos[i];
      } else {
        assert (pos + [n])[|pos|] == n;
      }
    }
  }

  /** The eligible calls stand in the response in this order, and no well-formed call
      with a new key is left out. */
  lemma {:induction false} EligiblePlaces(key: Value -> string, dedup: bool, calls: seq<Value>, n: nat) returns (pos: seq<nat>)
    requires n <= |calls|
    ensures StandAt(calls, n, Eligible(key, dedup, calls, n), pos) && AllRepresented(key, dedup, calls, pos, n)
  {
    if n == 0 {
      pos := [];
    } else {
      var before := EligiblePlaces(key, dedup, calls, n - 1);
      var call := calls[n - 1];
      if call.Object? && !(dedup && key(call) in Keys(key, calls, n - 1)) {
        pos := before + [n - 1];
        StandsLast(calls, n - 1, Eligible(key, dedup, calls, n - 1), before);
        OneMoreRepresented(key, dedup, calls, before, n - 1);
      } else {
        pos := before;
        if call.Object? {
          SeenIsRepresented(key, calls, n - 1, before);
        }
      }
    }
  }

  /** A call whose key was seen is represented by the one that represents the first
      of that key. */
  lemma SeenIsRepresented(key: Value -> string, calls: seq<Value>, k: nat, pos: seq<nat>)
    requires k < |calls| && key(calls[k]) in Keys(key, calls, k)
    requires AllRepresented(key, true, calls, pos, k)
    ensures Represented(key, true, calls, pos, k)
  {
    KeysOfCalls(key, calls, k);
    var j :| 0 <= j < k && calls[j].Object? && key(calls[j]) == key(calls[k]);
    var i :| 0 <= i < |pos| && pos[i] <= j && key(calls[pos[i]]) == key(calls[j]);
  }

  /** The kept calls are well-formed, at most `max`, a prefix of the eligible
      ones, and with `dedup` no two of them share a key. */
  lemma KeptIsSafe(key: Value -> string, max: nat, dedup: bool, calls: seq<Value>)
    requires 0 < max
    ensures var kept := Kept(key, max, dedup, calls);
            && |kept| <= max
            && |kept| <= WellFormed(calls, |calls|)
            && kept <= Eligible(key, dedup, calls, |calls|)
            && (|kept| < max ==> kept == Eligible(key, dedup, calls, |calls|))
            && (forall c :: c in kept ==> c.Object? && c in calls)
            && (dedup ==> forall i, j :: 0 <= i < j < |kept| ==> key(kept[i]) != key(kept[j]))
            && (WellFormed(calls, |calls|) > 0 ==> kept != [])
  {
    EligibleSound(key, dedup, calls, |calls|);
  }

  /** Calls that satisfy the limits already are all eligible. */
  lemma {:induction false} EligibleOfSafe(key: Value -> string, dedup: bool, calls: seq<Value>, n: nat)
    requires n <= |calls|
    requires forall i :: 0 <= i < |calls| ==> calls[i].Object?
    requires dedup ==> forall i, j :: 0 <= i < j < |calls| ==> key(calls[i]) != key(calls[j])
    ensures Eligible(key, dedup, calls, n) == calls[..n] && WellFormed(calls, n) == n
  {
    if n > 0 {
      EligibleOfSafe(key, dedup, calls, n - 1);
      if dedup {
        LastKeyIsNew(key, calls, n);
      }
      assert calls[..n] == calls[..n - 1] + [calls[n - 1]];
    }
  }

  lemma LastKeyIsNew(key: Value -> string, calls: seq<Value>, n: nat)
    requires 0 < n <= |calls| && forall i, j :: 0 <= i < j < |calls| ==> key(calls[i]) != key(calls[j])
    ensures key(calls[n - 1]) !in Keys(key, calls, n - 1)
  {
    KeysOfCalls(key, calls, n - 1);
  }

  /** With the limit `New` sets, a rewritten response always keeps some call: the
      branch that deletes `tool_calls` is unreachable. */
  lemma SomeCallIsKept(max: nat, dedup: bool, payload: Value)
    requires 0 < max && Guarded(max, dedup, payload).1
    ensures Kept(ToolCallKey, max, dedup, Locate(payload).value.calls) != []
  {
    KeptIsSafe(ToolCallKey, max, dedup, Locate(payload).value.calls);
  }

  /** The guard rewrites the response exactly when some well-formed call is
      dropped; it then leaves the kept calls, and every part of the response
      other than the note and the finish reason as received. */
  lemma GuardRewritesIffDropped(max: nat, dedup: bool, payload: Value)
    requires 0 < max && Locate(payload).Some?
    ensures var site := Locate(payload).value;
            var (guarded, changed) := Guarded(max, dedup, payload);
            && (changed <==> |Kept(ToolCallKey, max, dedup, site.calls)| < WellFormed(site.calls, |site.calls|))
            && (!changed ==> guarded == payload)
            && (changed ==>
                  && Locate(guarded).Some?
                  && var site' := Locate(guarded).value;
                  && site'.calls == Kept(ToolCallKey, max, dedup, site.calls)
                  && site'.payload - {"choices"} == site.payload - {"choices"}
                  && site'.choices[1..] == site.choices[1..]
                  && site'.choice - {"message", "finish_reason"} == site.choice - {"message", "finish_reason"}
                  && site'.message - {"tool_calls", "content"} == site.message - {"tool_calls", "content"})
  {
    var site := Locate(payload).value;
    KeptIsSafe(ToolCallKey, max, dedup, site.calls);
    if Guarded(max, dedup, payload).1 {
      var kept := Kept(ToolCallKey, max, dedup, site.calls);
      var reason := if OverLimit(ToolCallKey, max, dedup, site.calls) then LimitReached else DuplicateCall;
      RewriteKeepsRest(site, payload, kept, ReasonText(reason, max));
    }
  }

  lemma ReplaceLocates(site: Site, payload: Value, message: Fields, finish: string)
    requires Locate(payload) == Some(site)
    requires "tool_calls" in message && message["tool_calls"].List? && message["tool_calls"].items != []
    ensures var choice := site.choice["message" := Object(message)]["finish_reason" := Str(finish)];
            var choices := site.choices[0 := Object(choice)];
            Locate(Replace(site, message, finish)) ==
            Some(Site(site.payload["choices" := List(choices)], choices, choice, message, message["tool_calls"].items))
  {
  }

  lemma RewriteKeepsRest(site: Site, payload: Value, kept: seq<Value>, reason: string)
    requires Locate(payload) == Some(site) && kept != []
    ensures var r := Locate(Rewrite(site, kept, reason));
            && r.Some?
            && r.value.calls == kept
            && r.value.payload - {"choices"} == site.payload - {"choices"}
            && r.value.choices[1..] == site.choices[1..]
            && r.value.choice - {"message", "finish_reason"} == site.choice - {"message", "finish_reason"}
            && r.value.message - {"tool_calls", "content"} == site.message - {"tool_calls", "content"}
  {
    var message := site.message["tool_calls" := List(kept)];
    var noted := message["content" := Str(Note(StringOr(Get(message, "content")), reason))];
    ReplaceLocates(site, payload, noted, "tool_calls");
  }

  /** The text is the one received, without white space around it and with an empty line
      after it unless nothing is left of it, and then the reason and what to do. */
  ghost predicate Announces(was: string, now: string, reason: string) {
    exists t :: TrimmedOf(was, t) &&
      now == (if t == "" then "" else t + "\n\n") + reason + ". Continuing with the remaining distinct tool calls."
  }

  lemma NoteAnnounces(content: string, reason: string)
    ensures Announces(content, Note(content, reason), reason)
  {
    TrimSpaceIs(content);
    assert "" + reason == reason;
  }

  /** A rewritten response asks for its calls to be run, and says which rule dropped
      the others: the limit, if a call came when as many as it allows were kept. */
  lemma RewriteTells(max: nat, dedup: bool, payload: Value)
    requires 0 < max && Guarded(max, dedup, payload).1
    ensures var site, now := Locate(payload).value, Locate(Guarded(max, dedup, payload).0);
            && now.Some?
            && Get(now.value.choice, "finish_reason") == Str("tool_calls") && Get(now.value.message, "content").Str?
            && Announces(StringOr(Get(site.message, "content")), Get(now.value.message, "content").s,
                 if OverLimit(ToolCallKey, max, dedup, site.calls)
                 then "partial completion: limited to " + Itoa(max) + " tool calls per assistant turn"
                 else "partial completion: duplicate tool call detected in the same assistant turn")
  {
    var site := Locate(payload).value;
    var kept := Kept(ToolCallKey, max, dedup, site.calls);
    var reason := if OverLimit(ToolCallKey, max, dedup, site.calls) then LimitReached else DuplicateCall;
    KeptIsSafe(ToolCallKey, max, dedup, site.calls);
    RewriteSays(site, payload, kept, ReasonText(reason, max));
  }

  lemma RewriteSays(site: Site, payload: Value, kept: seq<Value>, reason: string)
    requires Locate(payload) == Some(site) && kept != []
    ensures var now := Locate(Rewrite(site, kept, reason));
            && now.Some? && Get(now.value.choice, "finish_reason") == Str("tool_calls")
            && Get(now.value.message, "content").Str?
            && Announces(StringOr(Get(site.message, "content")), Get(now.value.message, "content").s, reason)
  {
    var message := site.message["tool_calls" := List(kept)];
    var content := StringOr(Get(message, "content"));
    assert Get(message, "content") == Get(site.message, "content");
    ReplaceLocates(site, payload, message["content" := Str(Note(content, reason))], "tool_calls");
    NoteAnnounces(content, reason);
  }

  /** Guarding a guarded response changes nothing. */
  lemma GuardIsIdempotent(max: nat, dedup: bool, payload: Value)
    requires 0 < max
    ensures var once := Guarded(max, dedup, payload).0;
            Guarded(max, dedup, once) == (once, false)
  {
    if Guarded(max, dedup, payload).1 {
      var kept := Kept(ToolCallKey, max, dedup, Locate(payload).value.calls);
      GuardRewritesIffDropped(max, dedup, payload);
      KeptIsSafe(ToolCallKey, max, dedup, Locate(payload).value.calls);
      EligibleOfSafe(ToolCallKey, dedup, kept, |kept|);
    }
  }

  // ----- The code

  /** The loop over the calls of one turn. */
  method FilterCalls(key: Value -> string, max: nat, dedup: bool, calls: seq<Value>) returns (filtered: seq<Value>, reason: Reason)
    ensures filtered == Kept(key, max, dedup, calls)
    ensures reason == if |filtered| == WellFormed(calls, |calls|) then NoReason
                      else if OverLimit(key, max, dedup, calls) then LimitReached else DuplicateCall
  {
    var seen: set<string> := {};
    filtered, reason := [], NoReason;
    for index := 0 to |calls|
      invariant filtered == Eligible(key, dedup, calls, index) && |filtered| <= max
      invariant dedup ==> seen == Keys(key, calls, index)
      invariant |filtered| <= WellFormed(calls, index)
      invariant reason == if |filtered| == WellFormed(calls, index) then NoReason else DuplicateCall
      invariant forall i :: 0 <= i < index && calls[i].Object? ==> |Eligible(key, dedup, calls, i)| < max
    {
      var call := calls[index];
      if !call.Object? {
        continue;
      }
      if |filtered| >= max {
        OverLimitDrops(key, max, dedup, calls, index);
        return filtered, LimitReached;
      }
      var k := key(call);
      if dedup {
        if k in seen {
          if reason == NoReason {
            reason := DuplicateCall;
          }
          continue;
        }
        seen := seen + {k};
      }
      filtered := filtered + [call];
    }
  }

  /** The guard on a decoded response. */
  method ApplyToolCallGuards(max: nat, dedup: bool, payload: Value) returns (guarded: Value, changed: bool)
    ensures (guarded, changed) == Guarded(max, dedup, payload)
  {
    var located := Locate(payload);
    if located.None? {
      return payload, false;
    }
    var filtered, reason := FilterCalls(ToolCallKey, max, dedup, located.value.calls);
    if reason == NoReason {
      return payload, false;
    }
    return Rewrite(located.value, filtered, ReasonText(reason, max)), true;
  }
}
