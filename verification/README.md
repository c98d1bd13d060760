# A verified model of groovy-agent

The project models the five parts of groovy-agent whose correctness depends on
more than one function, and proves what they promise.

- **Tools cache and call guard** (`ToolsCache.dfy`, `CacheRuns.dfy`,
  `ToolCallGuard.dfy`). The cache
  is a step system with any number of callers, each holding the time it read
  before it took the lock, a clock that never goes back, and done-channels that
  are numbered and closed. `ToolsProxy.Proxy` is the same protocol as methods on
  the proxy's fields. The guard filters the tool calls of a model response.
- **Rendered DOM** (`LinkedTree.dfy`, `TreeWalk.dfy`, `PageRules.dfy`, `RenderedDom.dfy`). Nodes are
  heap objects with parent, child and sibling links. A ghost `Shape` says which
  nodes hang where, `Linked` ties it to the pointers, and `Abs` reads the plain
  tree off. Cleaning and cloning are proved in place against functions on shapes.
- **Agent loop** (`Context.dfy`, `AgentLoop.dfy`). Pruning of the conversation, and
  the session with its three budgets. The model and the tools are oracles
  indexed by the number of the request or call, so every behaviour of either is
  covered.
- **JSON-RPC** (`JsonRpc.dfy`, `McpClient.dfy`, `McpServer.dfy`). Client and server as
  classes, and the two joined by in-order streams as a step system in which calls
  can be abandoned at any time.
- **Schemas and line tools** (`JsonSchema.dfy`, `SchemaMeaning.dfy`, `SchemaOrder.dfy`,
  `Lines.dfy`, `StableSort.dfy`, `SortTool.dfy`, `TextTools.dfy`). The validator against a
  declarative meaning, spelled out keyword by keyword, with and without the discriminated
  `anyOf` shortcut; which outcomes the order of map iteration can bring about; and sort,
  uniq, cut, paste, head and tail.

`Options.dfy`, `GoStrings.dfy` and `GoValues.dfy` hold what these share. A Go string
is a sequence of characters that each stand for one byte. Map iteration is an
arbitrary order that the model takes as a parameter.

Five promises do not hold of the code for all inputs. In each case the code is
modelled as it is, one lemma gives a failing input, and another states the exact
condition under which the promise holds:

- The validator's outcome can depend on map order, because Go panics when it compares
  two arrays or two objects (`PanicDependsOnOrder`). It does exactly when both a panic
  and a verdict are allowed, which a recursion over schema and value decides without
  trying orders (`OrderMattersIff`). A verdict, where there is one, is always the same
  and always right (`VerdictIsUnique`, `ValidateDecides`), and enums of scalars never
  panic (`ScalarEnumsNeverPanic`).
- The `anyOf` shortcut accepts only what the standard accepts (`AcceptedIsStandard`),
  but not all of it (`ShortcutLosesBranches`). It loses a value exactly when, somewhere,
  the selected branch is not satisfied or is itself overruled (`ShortcutAcceptsIff`). That
  all unions are tagged is sufficient for losing nothing (`StandardIsAccepted`).
- Incremental pruning equals full pruning except when there is no new request, all of
  the old activity was dropped, and the new activity starts with a tool result and fits
  (`PruneIncrementalIff`). Then it keeps a result whose call was dropped
  (`IncrementalNeedsNewExchange`).
- Numeric sorting with `unique` can repeat a line (`NumericUniqueRepeats`). It does so
  exactly when a differently written equal number stands between two copies of a
  line in the input (`NumericUniqueIff`).
- Splitting undoes joining, on which cut and paste rest, exactly for delimiters that do
  not overlap themselves (`SplitOfJoinIff`). No single character does
  (`CharacterDoesNotOverlap`); for every delimiter that does, cut fails to undo paste on
  some inputs without it (`OverlapBreaksCut`).

## Model

| member | source | states |
|---|---|---|
| ToolsCache.NewLimits | internal/openaiproxy/proxy.go:63-74 | the limits in use are always positive, each positive setting is kept, and a missing error lifetime is the list's |
| ToolsCache.LogGrows | internal/openaiproxy/proxy.go:273-284 | a finished fetch joins the history of effective fetches unless it was cancelled, and becomes the latest success only if it succeeded |
| ToolsCache.StepKeepsInv | internal/openaiproxy/proxy.go:239-289 | every step of every caller keeps the protocol invariant: one fetcher, sound channels, cache fields equal to the latest outcomes, fetches spaced by the smaller time to live |
| ToolsCache.RunKeepsInv | internal/openaiproxy/proxy.go:239-289 | the invariant holds after every run, with any number of callers and any interleaving |
| ToolsCache.FinishRemembers | internal/openaiproxy/proxy.go:270-286 | whatever way a fetch ends, the cache fields are again what the history of fetches says |
| CacheRuns.FetchRateBounded | internal/openaiproxy/proxy.go:241-286 | any n successive fetches that were not cancelled span at least (n-1) times the smaller time to live, wherever one starts to count and whatever cancelled fetches lie between |
| CacheRuns.OneFetchAndNoDoubleClose | internal/openaiproxy/proxy.go:253-272 | at most one caller fetches, the in-flight flag says whether one does, and no done-channel is closed twice |
| CacheRuns.NoLostWakeUp | internal/openaiproxy/proxy.go:253-264 | the channel a waiter holds is closed already or is the current one of a fetch that is still running |
| CacheRuns.LookupAnswers | internal/openaiproxy/proxy.go:241-252 | a served list is the latest success and younger than its time to live at the caller's own reading; a served error is newer than every success |
| CacheRuns.FetcherGetsItsFetch | internal/openaiproxy/proxy.go:266-287 | a caller whose fetch succeeded returns exactly the list it fetched, which is the new cached list and the latest success; one whose fetch failed or was cancelled returns its own error |
| CacheRuns.ErrorOutlivesList | internal/openaiproxy/proxy.go:243-284 | when both a list and an error are held, the error came at least one list lifetime after the list |
| CacheRuns.CancelledFetchLeavesNoTrace | internal/openaiproxy/proxy.go:270-280 | a cancelled fetch changes no cached field; it only ends the flight and closes its channel |
| CacheRuns.NextStep | internal/openaiproxy/proxy.go:240-288 | in every reachable state some step brings a given caller nearer to its answer, without anyone giving up |
| CacheRuns.CallCanReturn | internal/openaiproxy/proxy.go:240-288 | from every reachable state every caller can be brought to return: the protocol cannot deadlock |
| ToolsProxy.Proxy.constructor | internal/openaiproxy/proxy.go:56-88 | a new proxy has normalised limits and an empty cache |
| ToolsProxy.Proxy.Enter | internal/openaiproxy/proxy.go:242-265 | the first locked section refines the lookup step of the protocol |
| ToolsProxy.Proxy.CloseFetchDone | internal/openaiproxy/proxy.go:272-272 | the current channel, open before, becomes closed |
| ToolsProxy.Proxy.Leave | internal/openaiproxy/proxy.go:270-287 | the second locked section refines the completion step of the protocol, and its answer is the fetched list, now the cached one, or the fetch's own error |
| ToolsProxy.Proxy.GetOpenAITools | internal/openaiproxy/proxy.go:239-289 | a call that finds no flight under way answers from the cache exactly while it is fresh and changes nothing then; otherwise it fetches once and answers with the list it fetched, which it stores, or with the fetch's own error, which it stores beside the old list unless the fetch was cancelled |
| ToolCallGuard.LocateIs | internal/openaiproxy/proxy.go:457-476 | the guard works on a response exactly when its first choice's message has a non-empty call list, and then on that one |
| ToolCallGuard.SameToolCallKeyIff | internal/openaiproxy/proxy.go:526-531 | calls share a key exactly when they name the same function and have the same arguments up to white space at the ends, for names without a newline |
| ToolCallGuard.FilterCalls | internal/openaiproxy/proxy.go:478-501 | the loop keeps exactly the first `max` well-formed calls after removing repeated keys, and gives a reason exactly when it dropped one |
| ToolCallGuard.ApplyToolCallGuards | internal/openaiproxy/proxy.go:456-524 | the payload and the flag are those of the guard's specification |
| ToolCallGuard.EligibleGrows | internal/openaiproxy/proxy.go:481-501 | looking at more calls only appends, by no more than the well-formed ones seen |
| ToolCallGuard.EligibleSound | internal/openaiproxy/proxy.go:481-501 | the eligible calls are well-formed calls of the response, no more than there are, and with different keys when repeats are removed |
| ToolCallGuard.EligiblePlaces | internal/openaiproxy/proxy.go:481-501 | they stand in the response in this order, and every well-formed call is eligible itself or, when repeats are removed, has its key on one no later than itself |
| ToolCallGuard.KeptIsSafe | internal/openaiproxy/proxy.go:486-500 | what is kept obeys the limit, is well-formed, and has different keys when repeats are removed |
| ToolCallGuard.EligibleOfSafe | internal/openaiproxy/proxy.go:481-501 | calls that obey the rules already all stay |
| ToolCallGuard.SomeCallIsKept | internal/openaiproxy/proxy.go:72-75 | under a positive limit a rewritten response keeps at least one call, so the branch for no calls left is never taken |
| ToolCallGuard.GuardRewritesIffDropped | internal/openaiproxy/proxy.go:502-523 | the response is rewritten if and only if a well-formed call was dropped |
| ToolCallGuard.RewriteKeepsRest | internal/openaiproxy/proxy.go:509-518 | a rewritten response still holds a call list in the same place, namely the kept calls |
| ToolCallGuard.RewriteTells | internal/openaiproxy/proxy.go:502-519 | a rewritten response asks for its calls to be run, and its text is the one received, trimmed, followed by which rule dropped the others |
| ToolCallGuard.GuardIsIdempotent | internal/openaiproxy/proxy.go:456-524 | guarding a guarded response changes nothing and reports no change |
| LinkedTree.RemoveChild | webutils/browser.go:1322-1335 | unlinking a child leaves the child list without it, all links consistent, and the child detached |
| LinkedTree.AppendChild | webutils/browser.go:1400-1415 | appending a detached node makes it the last child, all links consistent |
| LinkedTree.Unlink | webutils/browser.go:1322-1335 | after an unlink the whole tree below the node is linked consistently, without that child |
| LinkedTree.CleanedDistinct | webutils/browser.go:1322-1335 | a cleaned tree still has every node in one place only |
| LinkedTree.ChildRelinked | webutils/browser.go:1322-1335 | when only the part below one child changed, and its place did not, the whole tree is consistent again |
| LinkedTree.CleanChild | webutils/browser.go:1322-1335 | one step of the walk removes the child or cleans what is below it |
| LinkedTree.Clean | webutils/browser.go:1322-1335 | cleaning in place turns the linked tree into the filtered one, with consistent parent and sibling links, and moves nothing outside it |
| LinkedTree.Adopt | webutils/browser.go:1400-1415 | a copied subtree is hung below the copy under construction |
| LinkedTree.CopyChild | webutils/browser.go:1400-1415 | one step of the copy loop adds a fresh copy of the next child |
| LinkedTree.Clone | webutils/browser.go:1400-1415 | the clone consists of new nodes only, is detached, and reads as the same tree as the original |
| TreeWalk.Walk | webutils/browser.go:1304-1320 | the recursive walk appends the matching nodes in document order |
| TreeWalk.FindElements | webutils/browser.go:1304-1320 | the result is every matching node of the tree, in document order |
| TreeWalk.PreOrderNoRepeats | webutils/browser.go:1304-1320 | document order visits no node twice |
| TreeWalk.DocumentOrder | webutils/browser.go:1304-1320 | a node is listed before all nodes below it, and before all that hang off a child further right of a node above it |
| TreeWalk.ListedHasPath | webutils/browser.go:1304-1320 | whatever is listed has a position in the tree |
| TreeWalk.NodeIsListed | webutils/browser.go:1304-1320 | the node at every position is listed |
| TreeWalk.AbsHasPaths | webutils/browser.go:1417-1426 | the plain tree has the same positions as the linked one, with the same contents |
| TreeWalk.AbsCleaned | webutils/browser.go:1322-1335 | as a plain tree, the cleaned tree is the recursive filter of the original |
| TreeWalk.PrunedIsPurged | webutils/browser.go:1322-1335 | no proper descendant that should be removed survives, and the root stays |
| TreeWalk.PurgedStays | webutils/browser.go:1322-1335 | a tree with nothing to remove is left alone |
| TreeWalk.PruningTwice | webutils/browser.go:1322-1335 | filtering a tree twice is filtering it once |
| TreeWalk.CleaningTwice | webutils/browser.go:1322-1335 | cleaning the linked tree a second time changes no link |
| TreeWalk.SurvivorsAreSpared | webutils/browser.go:1322-1335 | a node survives if and only if neither it nor an ancestor below the root should be removed |
| TreeWalk.SurvivorsInOrder | webutils/browser.go:1322-1335 | survivors keep their document order |
| PageRules.ValueOfIff | webutils/browser.go:1391-1398 | an attribute's value is that of the first attribute with its key, in either case, and empty if there is none |
| PageRules.HasTagIff | webutils/browser.go:1374-1376 | a node has a tag exactly when it is an element whose name spells the tag, with case ignored |
| PageRules.HasAttrValueIff | webutils/browser.go:1378-1380 | an attribute has a value exactly when, without the white space around it, it spells the value, with case ignored |
| PageRules.MentionsIff | webutils/browser.go:1359-1371 | an attribute mentions a token exactly when its value spells the token somewhere, with capitals lowered |
| PageRules.ShouldRemoveIff | webutils/browser.go:1337-1372 | noise are the elements with a removed tag, a hiding attribute, a removed role, a true hiding declaration, or a token in one of their names |
| PageRules.ThePageNoiseIsWords | webutils/browser.go:1341-1368 | the page's own word lists meet the condition under which this holds |
| RenderedDom.AppendMatches | webutils/browser.go:1266-1302 | one tier adds the matches not seen before, in order, and marks them all seen |
| RenderedDom.CollectTier | webutils/browser.go:1266-1302 | after a tier the list is exactly the candidates of the tiers so far |
| RenderedDom.CollectRenderedDOMCandidates | webutils/browser.go:1266-1302 | the list is the candidates of the four tiers |
| RenderedDom.CandidateTier | webutils/browser.go:1266-1302 | every candidate is a node of the document with the bonus and kind of the first tier it matches |
| RenderedDom.TierInOrder | webutils/browser.go:1304-1320 | the nodes of one tier are different and in document order |
| RenderedDom.CandidatesInOrder | webutils/browser.go:1266-1302 | of two candidates the one listed first has an earlier tier, or the same tier and an earlier place in the document; none is listed twice |
| RenderedDom.CandidateOf | webutils/browser.go:1266-1302 | every node that matches a tier is a candidate |
| RenderedDom.CandidatesAreMatches | webutils/browser.go:1266-1302 | each matching node is listed exactly once, with the bonus of its first tier, in tier order and in document order within a tier |
| RenderedDom.PageCandidatesAre | webutils/browser.go:1266-1302 | on a page these are the main elements with bonus 60, those in the role of main with 50, articles with 40 and the body with 0, each once, higher bonuses first and then in document order |
| RenderedDom.EvaluateYields | webutils/browser.go:1212-1226 | a candidate yields the trimmed Markdown of its trimmed rendering, rated with its bonus; nothing if that renders to white space, cannot be converted or has no text |
| RenderedDom.ReadTree | webutils/browser.go:1417-1426 | what rendering sees of a linked node is its plain tree |
| RenderedDom.TryCandidate | webutils/browser.go:1212-1226 | a candidate yields what its own filtered subtree of the original document renders to; the document is not modified |
| RenderedDom.BestStep | webutils/browser.go:1227-1234 | one comparison keeps the best so far: no later result has a higher score, or the same score and more text, and every earlier one falls behind strictly |
| RenderedDom.BestCandidate | webutils/browser.go:1207-1235 | the loop returns the earliest candidate whose score no other exceeds and whose text no other of the same score exceeds |
| RenderedDom.ExtractRenderedDOM | webutils/browser.go:1203-1239 | the answer is the best by score and then by length of text of what all candidates yield on the unchanged document, or the error for no candidate or no text |
| RenderedDom.ExtractRenderedDOMMarkdown | webutils/browser.go:1203-1239 | the same with the page's own tests for candidates and noise |
| Context.MessageTokens | internal/agent/context.go:18-24 | the loop computes the message's cost |
| Context.MessageCosts | internal/agent/context.go:18-24 | a message costs 8 tokens beside its text, and each further call adds 8 beside its name and arguments |
| Context.EstimateIs | internal/agent/context.go:14-16 | a text counts as one token for each four bytes begun |
| Context.KeysCostAnyOrder | internal/agent/context.go:30-32 | the cost of a tool's parameter names does not depend on the order they are visited in |
| Context.ToolsTokens | internal/agent/context.go:26-36 | the loop computes the tools' cost, in whatever order it visits the parameters |
| Context.ToolCosts | internal/agent/context.go:26-36 | each further tool adds 64 tokens beside its texts, and each further key 4 beside its name |
| Context.DropOldestExchange | internal/agent/context.go:100-109 | what is dropped ends at the first exchange boundary after the start |
| Context.DropUntilFits | internal/agent/context.go:76-91 | the loop leaves the longest exchange-aligned suffix that fits, and its error is unreachable |
| Context.FindLastUser | internal/agent/context.go:49-57 | the last user message is found |
| Context.ActivityAfter | internal/agent/context.go:64-71 | the activity after the request, with long tool results clamped |
| Context.PruneMessages | internal/agent/context.go:42-96 | the method computes the specified pruning, errors included |
| Context.PrunedFits | internal/agent/context.go:73-88 | kept messages, tools and the reserved answer fit the context |
| Context.PruneGuarantees | internal/agent/context.go:42-116 | what is kept are the first message, the last user message and the messages from an exchange boundary on, unchanged except that a tool result of more than 4096 bytes is its first 4096 bytes and the marker; and it fits 4096 tokens with the tools and the reserved answer |
| Context.PrunedIsLongest | internal/agent/context.go:76-109 | no longer exchange-aligned suffix would fit |
| Context.PruneFailsIff | internal/agent/context.go:43-91 | pruning fails exactly on an empty conversation, without a user message, and when the fixed part leaves no budget |
| Context.ClampTwice | internal/agent/context.go:111-116 | clamping a clamped result changes nothing although the marker made it longer |
| Context.FittingGrows | internal/agent/context.go:76-109 | what fits of a longer activity can be found from what fitted before, exactly unless all of that was dropped and the rest starts with a tool result and fits |
| Context.RequestStays | internal/agent/context.go:49-73 | new activity changes neither the request nor the budget |
| Context.NewRequest | internal/agent/context.go:49-57 | a new user message makes all before it but the first message irrelevant |
| Context.PruneIncrementalIff | internal/agent/context.go:42-116 | pruning the pruned conversation plus new activity equals pruning the full one, exactly unless all old activity was dropped and the new one has no request, starts with a tool result and fits |
| Context.PruneIncremental | internal/agent/context.go:42-116 | the equality holds for all activity that does not start with a tool result |
| Context.PruneFailsForGood | internal/agent/context.go:42-96 | what cannot be pruned cannot be pruned later |
| Context.IncrementalNeedsNewExchange | internal/agent/context.go:76-109 | a concrete conversation where activity starting with a tool result breaks the equality |
| Context.PruneTwice | internal/agent/context.go:42-116 | pruning is idempotent |
| AgentLoop.ExposedAreUsable | internal/agent/agent.go:321-342 | at most six tools are exposed, all of them from the profile, discovered and with a readable schema |
| AgentLoop.ExposedPlaces | internal/agent/agent.go:321-342 | they stand in the profile in this order, and a usable tool is left out only behind six others |
| AgentLoop.ShownAs | internal/agent/agent.go:346-359 | the model is shown each tool's own name, description and schema keys |
| AgentLoop.ExposeProfile | internal/agent/agent.go:321-359 | the tool list and the lookup table hold exactly these tools, in profile order |
| AgentLoop.CheckArguments | internal/agent/toolcall.go:107-128 | no problem is reported if and only if every argument is within its limit and every path is allowed |
| AgentLoop.ArgumentsAllowedIff | internal/agent/toolcall.go:107-128 | these limits are 12288 for bytes and characters, 200 for lines and results and 20 for matches, on whole numbers only; a path is text that the workspace allows unless the tool only handles text |
| AgentLoop.RawArgumentsAre | internal/agent/toolcall.go:92-95 | the arguments that are checked and sent are those the model gave, without white space at the ends, and an empty object where it gave nothing else |
| AgentLoop.ValidateCall | internal/agent/toolcall.go:80-130 | a call is allowed if and only if it passes every check, and then with the arguments the model gave; the early refusals come in their order, the later ones each have their cause, and a crash is a panic of the validator on these arguments |
| AgentLoop.SameCallKeyIff | internal/agent/agent.go:303-307 | calls count as repeated exactly when they have the same name and the same arguments up to white space at the ends, for names without a newline |
| AgentLoop.CallIdIs | internal/agent/toolcall.go:42-43 | a result is sent under the call's own id without white space around it, and an id of white space alone is none |
| AgentLoop.InventedIdsDiffer | internal/agent/toolcall.go:42-46 | different calls without an id are given different ids |
| AgentLoop.BoundaryStartsBlock | internal/agent/context.go:98-109 | an exchange boundary in a sequence of whole blocks is the start of a block |
| AgentLoop.BlocksOfClamped | internal/agent/context.go:64-71 | clamping results leaves blocks whole |
| AgentLoop.FittingKeepsBlocks | internal/agent/context.go:76-109 | pruning never splits a block |
| AgentLoop.PrunedIsWellFormed | internal/agent/context.go:42-96 | a pruned conversation of whole blocks is system, user, whole blocks, and fits |
| AgentLoop.Session.constructor | internal/agent/agent.go:116-125 | a new session has spent and sent nothing |
| AgentLoop.Session.CallTheTool | internal/agent/toolcall.go:57-77 | the tool's own client is called once with these arguments, and the message carries what it answered, or that it was too long |
| AgentLoop.Session.RunToolCall | internal/agent/toolcall.go:41-77 | the call is made exactly when it has an id, is permitted and has a client, with the arguments the model gave; the budget is kept; the message answers the call and carries the tool's normalised answer, or the error of a refusal that has its cause in this call; trouble has its cause in this call |
| AgentLoop.Session.RunRequested | internal/agent/agent.go:309-313 | one call of a turn, recorded with the tool and the arguments the model asked for |
| AgentLoop.Session.RunTurn | internal/agent/agent.go:293-314 | the calls of one turn are made in order, each as the model asked, below the per-turn limit; a completed turn answered all of them, a stopped one was over the limit or repeated a call, and a failed one has its trouble from one of them |
| AgentLoop.Session.Ask | internal/agent/agent.go:277-286 | the pruned conversation of the rounds so far is what is sent, and the reply is the model's next answer |
| AgentLoop.Session.HandleReply | internal/agent/agent.go:288-314 | the reply ends the run or completes a whole round |
| AgentLoop.Session.RunRound | internal/agent/agent.go:276-315 | one round leaves the run under way or finished |
| AgentLoop.Session.RunRounds | internal/agent/agent.go:276-318 | at most three rounds are run |
| AgentLoop.Session.Loop | internal/agent/agent.go:263-319 | one final line exactly when no error is returned; at most three model calls, each the pruned conversation of whole rounds and well-formed, starting with the system prompt and the user's; every call is one the model asked for in that round, with its arguments; the results of a completed round tell the model what each tool answered or that the call was refused; the reason of every ending and error, down to the call a tool failure came from; at most five tool calls in the session, all sound |
| AgentLoop.TurnIsFaithful | internal/agent/agent.go:304-314 | with the calls of one more turn, every call of the run is still one that the model asked for, and earlier rounds still told the model what came of theirs |
| AgentLoop.RoundIsFaithful | internal/agent/agent.go:276-315 | a completed round tells the model what came of each of its calls, and so do all rounds before it |
| AgentLoop.AnswerLineIs | internal/agent/agent.go:288-291 | the model's answer is printed without the white space around it |
| AgentLoop.TalkIsBlocks | internal/agent/agent.go:286-314 | what was said in completed rounds is whole blocks |
| AgentLoop.RequestsAreWellFormed | internal/agent/agent.go:276-315 | every request of every run is the system message, the user's request and whole blocks with different calls, and fits the context |
| AgentLoop.NeverTooLongLater | internal/agent/agent.go:278-281 | only the first model call of a run can fail for its length |
| AgentLoop.SentIsGood | internal/agent/agent.go:276-315 | all requests of a run are well-formed and start with its own system message and request |
| AgentLoop.AfterTurn | internal/agent/agent.go:298-314 | how a turn ends decides whether the run ends, and why |
| AgentLoop.AllRoundsDone | internal/agent/agent.go:317-318 | the round limit is reported only after three rounds that each made all their calls |
| JsonRpc.AnsweredIffWanted | internal/mcpserver/server.go:144-172 | a request is answered if and only if it carries an id and is not one of the two notifications, under its own id, and with "method not found" exactly for unknown methods |
| JsonRpc.LineAnswered | internal/mcpserver/server.go:130-141 | each line gets at most one answer, a proper response under the id due; a malformed line gets one under null |
| JsonRpc.AnsweredOnceInOrder | internal/mcpserver/server.go:120-172 | over a whole stream every request is answered exactly once, in order, under its own id, and notifications never (sections 4.1 and 5 of the JSON-RPC 2.0 Specification) |
| JsonRpc.AnswerStands | internal/mcpserver/server.go:120-142 | the answer to a line stands behind exactly as many answers as lines before it were due one |
| JsonRpc.CallIdsDiffer | internal/mcpclient/client.go:121-126 | different calls of a client carry different ids |
| JsonRpc.AcceptedIsOwn | internal/mcpclient/client.go:140-153 | the message a waiting call accepts is the server's answer to its own request |
| JsonRpc.StepKeepsInv | internal/mcpclient/client.go:93-160 | every step of client, server and streams keeps: nothing lost or reordered, ids unused so far, and no answer to the waiting call taken away |
| JsonRpc.RunKeepsInv | internal/mcpclient/client.go:93-160 | the invariant holds after every run |
| JsonRpc.CallsGetTheirOwnAnswers | internal/mcpclient/client.go:117-154 | in every run, with any calls abandoned on the way, each successful call gets what the server said to that same request, and no answer is used twice |
| JsonRpc.NextStepEnabled | internal/mcpclient/client.go:93-154 | a waiting call whose request wants an answer is never stuck |
| JsonRpc.CallCanReturn | internal/mcpclient/client.go:131-153 | such a call can get its answer whatever is still queued from abandoned calls |
| JsonRpc.NotificationsNeverReturn | internal/mcpserver/server.go:156-157 | a call to one of the two notification methods can only be abandoned |
| McpClient.Client.constructor | internal/mcpclient/client.go:39-50 | a new client has numbered and written nothing |
| McpClient.Client.Call | internal/mcpclient/client.go:117-154 | a call writes one request with its method and parameters under a new number, returns the result or the error code of the first queued message that answers it, and consumes the queue up to there and no further |
| McpClient.Client.Notify | internal/mcpclient/client.go:156-160 | a notification is one message with its method and parameters and without an id |
| McpClient.ReadLoop | internal/mcpclient/client.go:93-115 | every message up to the first unreadable line is delivered in order, blank lines are skipped |
| McpClient.StreamRoundTrip | internal/mcpclient/client.go:93-172 | a stream of encoded messages is read back as those messages |
| McpServer.OutputIsBounded | internal/mcpserver/server.go:227-247 | plain tool output is returned up to the limit, as a prefix, and marked as truncated exactly when the tool said so or it was cut |
| McpServer.CallAnswerIsRight | internal/mcpserver/server.go:192-240 | a tool call is answered with what its tool said in this very call, up to the limit, or with an unknown tool, a timeout, the tool's error category, or invalid arguments where they cannot be read or the schema does not accept them |
| McpServer.ResponseIsRight | internal/mcpserver/server.go:144-172 | initialize is answered with the handshake, ping with the pong, tools/list with the tool list, tools/call with that answer, each encoded, and with an internal error where encoding fails; anything else with method not found |
| McpServer.ResponsesAreRight | internal/mcpserver/server.go:120-172 | over a whole stream each line that is due a response has the right one, at its place |
| McpServer.Server.constructor | internal/mcpserver/server.go:89-102 | a new server has written and run nothing |
| McpServer.Server.CallTool | internal/mcpserver/server.go:192-240 | a tool is run exactly when it exists and its schema's declarative meaning accepts the arguments |
| McpServer.Server.RespondError | internal/mcpserver/server.go:277-282 | one error is written, under null if there is no id |
| McpServer.Server.RespondResult | internal/mcpserver/server.go:265-275 | nothing is written without an id, and an internal error if the result cannot be encoded |
| McpServer.Server.Dispatch | internal/mcpserver/server.go:144-172 | exactly the specified response is written, and a request without an id runs no tool |
| McpServer.Server.ServeLine | internal/mcpserver/server.go:130-140 | one line is skipped, refused or dispatched |
| McpServer.Server.Serve | internal/mcpserver/server.go:120-142 | the output is the answers to the lines served before the context ended, each the right one for its method at its place, and every tool ever run had accepted arguments |
| JsonSchema.SelectFrom | internal/jsonschema/jsonschema.go:166-192 | the first branch that lists the tag is selected, if there is one |
| JsonSchema.EnumIsMembership | internal/jsonschema/jsonschema.go:40-51 | the search panics or decides membership, numbers by value |
| JsonSchema.ValidateDecides | internal/jsonschema/jsonschema.go:34-140 | for every schema, value and order of visiting maps, the outcome is a panic or the declarative meaning of the schema |
| JsonSchema.AnyOfDecides | internal/jsonschema/jsonschema.go:142-164 | so it is for `anyOf`: the selected branch's verdict, or that some branch accepts |
| JsonSchema.TypeDecides | internal/jsonschema/jsonschema.go:58-139 | so it is for `type` and its keywords |
| JsonSchema.VerdictIsUnique | internal/jsonschema/jsonschema.go:34-140 | any two orders that return a verdict return the same one |
| JsonSchema.EnumPanicsIff | internal/jsonschema/jsonschema.go:211-218 | the search panics exactly when an incomparable candidate comes before any equal one |
| JsonSchema.EnumSafeIff | internal/jsonschema/jsonschema.go:211-218 | an `enum` is safe for every value exactly when it lists scalars only |
| JsonSchema.AcceptedIsStandard | internal/jsonschema/jsonschema.go:142-192 | what the shortcut accepts is accepted by some branch of every `anyOf` (section 10.2.1.2 of JSON Schema Core, draft 2020-12) |
| JsonSchema.ShortcutAcceptsIff | internal/jsonschema/jsonschema.go:142-192 | the code accepts exactly what the standard accepts and no selected branch, at any depth, overrules |
| JsonSchema.StandardIsAccepted | internal/jsonschema/jsonschema.go:142-192 | on tagged unions the shortcut accepts all the standard accepts |
| JsonSchema.ShortcutLosesBranches | internal/jsonschema/jsonschema.go:142-192 | a concrete schema and value the standard accepts and the shortcut rejects |
| JsonSchema.SameAccepts | internal/jsonschema/jsonschema.go:220-237 | acceptance does not change when numbers in schema or value change their Go type |
| JsonSchema.SameScalarEnums | internal/jsonschema/jsonschema.go:220-237 | nor does the condition that enums list scalars |
| JsonSchema.AgentAndServerAgree | internal/agent/toolcall.go:99-106 | for every schema, the agent's check against the transported schema and the server's against its own give the same verdict whenever both return |
| SchemaMeaning.BetweenIff | internal/jsonschema/jsonschema.go:194-202 | a number or count passes exactly when it is at least the lower keyword's number and at most the upper keyword's, where there are any |
| SchemaMeaning.TypeMeaningIff | internal/jsonschema/jsonschema.go:58-139 | what `type` accepts, keyword by keyword: required and additional properties and each property's schema, counts and items of arrays, lengths of strings, and bounds of numbers and of whole numbers within 64 bits |
| SchemaMeaning.EnumMeaningIff | internal/jsonschema/jsonschema.go:40-51 | `enum` accepts exactly a number equal to a listed one, or the same text, truth value or null |
| SchemaMeaning.SelectedIsFirst | internal/jsonschema/jsonschema.go:166-192 | the selected branch is the first whose property `type` enumerates the value's tag |
| SchemaMeaning.AnyOfMeaningIff | internal/jsonschema/jsonschema.go:142-164 | `anyOf` accepts exactly what the selected branch accepts or, if none is selected and in the standard's reading, some branch |
| SchemaMeaning.MeaningIff | internal/jsonschema/jsonschema.go:34-140 | the declarative meaning is that of these keywords together |
| SchemaMeaning.ValidateMeans | internal/jsonschema/jsonschema.go:34-140 | whenever the validator returns, it accepts exactly the values that satisfy the keywords |
| SchemaOrder.RunIsAllowed | internal/jsonschema/jsonschema.go:34-140 | every run, under any order, ends in an outcome the recursion allows |
| SchemaOrder.SameRun | internal/jsonschema/jsonschema.go:90-98 | a run depends on the order at places below its own only |
| SchemaOrder.AllowedIsReached | internal/jsonschema/jsonschema.go:34-140 | every allowed outcome is brought about by some order |
| SchemaOrder.OutcomeIff | internal/jsonschema/jsonschema.go:34-140 | some order ends in an outcome exactly when the recursion over schema and value allows it |
| SchemaOrder.OrderMattersIff | internal/jsonschema/jsonschema.go:34-140 | two orders can end differently exactly when a panic and a verdict are both allowed |
| SchemaOrder.PanicDependsOnOrder | internal/jsonschema/jsonschema.go:211-218 | a concrete input that one order rejects and another panics on |
| SchemaOrder.ScalarEnumsNeverPanic | internal/jsonschema/jsonschema.go:40-51 | a schema whose enums list scalars allows no panic |
| SchemaOrder.OrderDoesNotMatter | internal/jsonschema/jsonschema.go:34-140 | with scalar enums every order gives the declarative meaning |
| SchemaOrder.SameCan | internal/jsonschema/jsonschema.go:220-237 | the allowed outcomes do not change when numbers in schema or value change their Go type |
| SchemaOrder.AgentAndServerAllowTheSame | internal/mcpserver/server.go:202-205 | what the agent's check can end in, panics included, so can the server's, and the other way round |
| SchemaOrder.AgentAndServerAlwaysAgree | internal/mcpserver/server.go:202-205 | with scalar enums both return the same verdict |
| Lines.JoinOfSplit | coreutils/coreutils.go:15-30 | joining undoes splitting, for every separator and every text |
| Lines.FirstOccurrence | coreutils/text.go:130-130 | a separator that does not overlap itself is found where it was put |
| Lines.SplitOfJoin | coreutils/text.go:130-138 | splitting undoes joining of parts without the separator, for every separator that does not overlap itself |
| Lines.SplitOfJoinIff | coreutils/text.go:130-138 | it does so for all such parts exactly when the separator does not overlap itself |
| Lines.OverlapSplitsTooEarly | coreutils/text.go:130-138 | for each separator that does, two parts that are not split where they were joined |
| Lines.CharacterDoesNotOverlap | coreutils/text.go:130-138 | a separator whose first byte does not come again, as in every UTF-8 character, does not overlap itself |
| Lines.LinesAreFree | coreutils/coreutils.go:15-21 | no line holds a newline |
| Lines.SplitOfJoinLines | coreutils/coreutils.go:15-30 | lines that are joined are split into the same lines |
| Lines.JoinOfSplitLines | coreutils/coreutils.go:15-30 | text that is split is joined to itself, with its last line ended |
| Lines.LineCountIs | coreutils/text.go:45-53 | the reported line count is the number of lines |
| StableSort.SinkDown | coreutils/text.go:71-71 | one thing is swapped down to its place among the sorted ones before it |
| StableSort.SortStable | coreutils/text.go:71-71 | the array becomes its stable insertion sort |
| StableSort.ReverseInPlace | coreutils/text.go:72-76 | the array becomes its reversal |
| StableSort.UniqueAdjacent | coreutils/text.go:83-92 | the loop keeps what differs from its predecessor |
| StableSort.SortedIsPermutation | coreutils/text.go:71-71 | whatever the comparison, sorting only rearranges |
| StableSort.SortedArranged | coreutils/text.go:71-71 | whatever the comparison, a thing overtakes only what it is less than |
| StableSort.SortedIsStable | coreutils/text.go:71-71 | under an ordering the result ascends and equivalent things keep their order |
| StableSort.StableSortIsUnique | coreutils/text.go:71-71 | an ascending arrangement that keeps equivalent things in order is unique, so every stable algorithm gives this result |
| StableSort.SortedTwice | coreutils/text.go:71-71 | sorting is idempotent |
| StableSort.ThinnedIs | coreutils/text.go:83-92 | no equal neighbours remain, and the same members |
| StableSort.ThinnedReversed | coreutils/text.go:72-79 | dropping duplicates and reversing commute |
| StableSort.DistinctIffTogether | coreutils/text.go:83-92 | no duplicates remain exactly when equal things stand together |
| StableSort.SortedDistinctIff | coreutils/text.go:71-92 | sorting and thinning leave no duplicates exactly when no two equal things have a different but equivalent one between them in the input |
| SortTool.OneOrTheOther | coreutils/text.go:60-60 | byte order is total and strict |
| SortTool.BytesLessIff | coreutils/text.go:60-60 | the byte comparison decides where two lines first differ, and the shorter comes first if nowhere |
| SortTool.OrderIs | coreutils/text.go:60-70 | plain sorting compares bytes; numeric sorting compares the numbers that the trimmed lines read as, and bytes where one of them is no number |
| SortTool.SortedLinesAre | coreutils/text.go:56-81 | the laws of `Sort` for every mode, on the lines |
| SortTool.BytesOrder | coreutils/text.go:60-60 | byte order is an ordering of all lines |
| SortTool.NumericOrder | coreutils/text.go:61-70 | the numeric comparison orders lines that are numbers other than NaN |
| SortTool.MixedLinesHaveNoOrder | coreutils/text.go:61-70 | with other lines between them it goes round in a circle |
| SortTool.Sort | coreutils/text.go:56-81 | the output has the input's lines, each as often unless `unique` drops repeats in a row; a line overtakes only lines that it comes before, by bytes or by the number it reads as; lines that have an order are in it; and `reverse` turns all of it round |
| SortTool.SortRearranges | coreutils/text.go:56-81 | without `unique` the output lines are a permutation of the input lines in every mode |
| SortTool.ReverseIsExact | coreutils/text.go:72-79 | reversed output is the exact reversal, with and without `unique` |
| SortTool.PlainSortOrders | coreutils/text.go:56-81 | plain output ascends by bytes, with `unique` strictly and with the same set of lines |
| SortTool.PlainSortIsTheOnlyOne | coreutils/text.go:56-81 | it is the only byte-ordered arrangement of the lines |
| SortTool.NumericSortIsStable | coreutils/text.go:61-71 | numeric output ascends, is stable, and sorting it again changes nothing |
| SortTool.NumericUniqueIff | coreutils/text.go:61-81 | numeric `unique` output has no repeated line exactly when the input does not mix equal numbers |
| SortTool.NumericUniqueRepeats | coreutils/text.go:61-81 | the lines 1, 1.0, 1 keep a duplicate |
| SortTool.SortedTextHasTheLines | coreutils/text.go:80-80 | the returned text splits into exactly the sorted lines |
| TextTools.RunLength | coreutils/text.go:100-103 | the inner loop finds the whole run |
| TextTools.RunsAreRunList | coreutils/text.go:95-112 | the run list decodes to the lines, with positive counts and different neighbours |
| TextTools.Uniq | coreutils/text.go:95-112 | one line is printed for each run of the input's lines, behind its count if asked |
| TextTools.RunListIsUnique | coreutils/text.go:95-112 | lines have one run list only |
| TextTools.UniqAgrees | coreutils/text.go:45-112 | the counts sum to the line count, and without counts uniq prints what `uniqueAdjacent` keeps |
| TextTools.UniqTwice | coreutils/text.go:95-112 | uniq is idempotent |
| TextTools.CountedIsInjective | coreutils/text.go:104-105 | a counted line tells its count and its line |
| TextTools.CountedIs | coreutils/text.go:104-105 | a counted line is the count in decimal, ending in the seventh place if it can, a space and the line |
| TextTools.CountedOutputDecodes | coreutils/text.go:95-112 | texts with the same counted output have the same lines |
| TextTools.ClampLines | coreutils/coreutils.go:33-50 | every line is cut to the limit, and the flag says whether any was |
| TextTools.Head | coreutils/text.go:21-30 | line i of the output is line i of the input or its first 2048 bytes, for the first n lines or all; the flag says whether the output's lines differ from the input's |
| TextTools.Tail | coreutils/text.go:33-42 | the same for the last n lines |
| TextTools.PickFields | coreutils/text.go:131-136 | the fields the line has are selected in the order asked for |
| TextTools.PickIs | coreutils/text.go:131-136 | a field the line has stands behind as many as were had before it in the order asked for, every time it is asked for, and nothing else is there |
| TextTools.CutEach | coreutils/text.go:127-139 | every line is replaced by its selected fields |
| TextTools.Cut | coreutils/text.go:115-140 | each error exactly when its condition is met, in order, and otherwise every line, in its place, is its selected fields joined |
| TextTools.ReadColumns | coreutils/text.go:150-157 | the columns are the inputs' lines, and the longest is found |
| TextTools.CellsOfRow | coreutils/text.go:160-165 | a row has every column's cell, empty below its end |
| TextTools.Paste | coreutils/text.go:143-169 | as many lines as the longest input has, each the inputs' lines there, empty below an input's end, joined by the delimiter or a tab; none for no input |
| TextTools.PastedSplits | coreutils/text.go:143-169 | pasted text splits into the pasted lines and these into their rows |
| TextTools.CutUndoesPaste | coreutils/text.go:115-169 | for inputs without the delimiter, a character or any string that neither overlaps itself nor holds a newline, cutting field k of pasted text gives column k, padded to the longest column |
| TextTools.CutGivesColumn | coreutils/text.go:115-169 | line by line: where input k has a line, that line, and empty lines up to the length of the longest input |
| TextTools.OverlapBreaksCut | coreutils/text.go:115-169 | for every delimiter that overlaps itself, two inputs without it that cutting does not give back |
| TextTools.CutAllOfPaste | coreutils/text.go:115-169 | cutting all fields in order gives the pasted text back |
| GoStrings.TrimSpaceIff | internal/agent/toolcall.go:92-92 | trimming leaves the only text that white space can be put around, on both sides, to get the original, and that has none at its ends |
| GoStrings.TrimsToNothingIff | internal/agent/toolcall.go:92-95 | nothing is left exactly of what is white space throughout |
| GoStrings.EqualFoldIff | webutils/browser.go:1374-1389 | a text equals a lower-case word with case ignored exactly when it spells the word rune by rune |
| GoStrings.ToLowerIff | webutils/browser.go:1341-1344 | a lowered text is a word exactly when the text spells it with capitals lowered |
| GoStrings.LowerContainsIff | webutils/browser.go:1361-1368 | it contains a word exactly when the text spells it somewhere |

## Left out

- GetOpenAITools: one call that finds no flight under way; what concurrent callers do to each other is the step system of `ToolsCache` and `CacheRuns`.
- NumericSortIsStable: only for lines that are all numbers other than NaN; on other lines the comparison is no ordering, and what is stated of every input is in `SortedLinesAre`.
- SortStable: the insertion sort that Go's stable sort uses on short inputs; its block merging for long ones is not modelled, and where the comparison is an ordering every stable algorithm gives the same result.
- AcceptedIsStandard: string lengths are counted in bytes, as the code does, not in characters as the standard does.
- Sort: on long inputs in numeric mode that mix numbers and other lines, Go's merging may arrange the lines differently.
- CutUndoesPaste: not for delimiters that overlap themselves, where it fails, nor for those that hold a newline.
- StreamRoundTrip: encoding and decoding of JSON are parameters; a re-encoded id may spell the characters `<`, `>` and `&` as escapes.
- McpServer.Server.constructor: takes tools whose schemas list scalars in every `enum`, as those in internal/mcpserver/tools.go do.
- HTTP forwarding, header copying and streaming in the proxy, and the decoding of the tool list; a fetch is a success, a failure or a cancellation.
- JSON and UTF-8 decoding, number parsing, HTML parsing, rendering, conversion to markdown and quality scoring: parameters of the model.
- Numbers are exact reals instead of 64-bit floats, and the conversion of a float outside the 64-bit integer range is taken to fail.
- The texts of errors returned by validation and by tools; refusals carry their reason and category instead.
- Workspace path checks and the file tools: the path check is a parameter.
- A validator panic during an agent run is modelled as a failed run.
- Each reply of the model is taken to have the role "assistant".
- Profile selection by keywords, limit defaulting in the server, logging, and timeouts as wall-clock time.
- Unbounded streams: a full operating-system pipe, a write cut short in the middle of a message and lines beyond the scanner's limit are not modelled.
- Durations and counters are unbounded integers.
- Chromium driving, page waiting, search, URL policy, process start and stop.
- `Tr` and the base64 helpers: they would add only easy members.
