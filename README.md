# Weather-joke chat loop with function calling

This project models the chat loop of `runChat` in `main.go`, together with the two local tools it can run: `get_weather` and `get_joke`. The program keeps a transcript of chat messages. The transcript starts with one system prompt. The program then reads operator lines until the operator types `end`, in any letter case. Every other line becomes a user message. After each user message the program asks the model for a completion. If the model calls a function, the program runs the matching tool, appends the tool's reply in the `"function"` role, and asks again. The first response that is not a function call is appended verbatim and ends the turn.

Layout:

- `tools.dfy` (module `Tools`): the two formatters, plus `Unframe`, which reads the argument back out of a reply so that each formatter has an inverse.
- `chat.dfy` (module `Chat`) holds:
  - the message and response datatypes;
  - the single-response step `Dispatch`;
  - the specification functions `Turn` (the inner loop) and `Converse` / `ChatSession` (the outer loop);
  - the imperative `RunChat`, which grows the transcript over two nested loops and is proved equal to `ChatSession`.
- `properties.dfy` (module `ChatProperties`): lemmas about the specification functions.

The remote model and the terminal are oracles:

- The model's answers are a `seq<Response>`, consumed in order. A `Response` is `FunctionCall(name, args)`, `Final(message)` or `Failed`.
- The arguments are already decoded: `Parsed(map)`, or `Malformed` when the JSON text does not decode.
- The operator's lines are a `seq<string>`.

Both fatal exits of the program are the outcome `Fatal(fault)`: a failed API request, and arguments that do not decode. If either sequence runs out, the session ends with `InputExhausted` or `OutOfResponses`. The program has no such states. Because the oracles are finite, every loop terminates, with the lengths of the two sequences as `decreases` measures.

Where main.go departs from a generic description of tool calling, the model follows main.go:

- Tool replies carry the role `"function"`, not `"tool"`.
- The assistant message that carries the function call is never appended before the reply. So a reply is not preceded by the request it answers.
- A call to a tool name that is not registered is not an error. The `switch` has no default case, so nothing is appended and the model is asked again.
- The answering message is appended verbatim with whatever role it has.

## Model

| member | source | states |
|---|---|---|
| `Tools.GetWeather` | main.go:25-27 | the reply reads back, through `ReportedLocation`, as exactly the location given, framed by "The weather in " and " is sunny." (25 characters longer) |
| `Tools.GetJoke` | main.go:29-31 | the reply reads back, through `JokeSubject`, as exactly the weather word given, framed by "Why don't " and the fixed cloud punch line (68 characters longer) |
| `Tools.WeatherReportIff` | main.go:25-27 | a text is a weather report about `l` if and only if it equals `GetWeather(l)` |
| `Tools.JokeIff` | main.go:29-31 | a text is a joke about `w` if and only if it equals `GetJoke(w)` |
| `Tools.GetWeatherInjective` | main.go:25-27 | different locations never yield the same report |
| `Tools.GetJokeInjective` | main.go:29-31 | different weather words never yield the same joke |
| `Chat.Initial` | main.go:45-47 | the transcript starts as exactly one message: the system prompt in the `"system"` role |
| `Chat.UserMessage` | main.go:64-67 | an operator line becomes a `"user"` message whose content is the line itself, with no name |
| `Chat.Lower` | main.go:58 | lower-casing keeps the length and lower-cases each character on its own (ASCII only); `EndCommandIff` gives its use in the sentinel check |
| `Chat.IsEndCommand` | main.go:58 | only a three-character line can be the sentinel; `EndCommandIff` and `EndCommandExamples` characterise it exactly |
| `Chat.Arg` | main.go:125 | an argument is the decoded value under its key, or "" when the key is missing, as Go's map lookup gives (also used for the `weather` key at main.go:133) |
| `Chat.ToolReply` | main.go:123-140 | a reply exists exactly for the names `get_weather` and `get_joke`; it is a `"function"`-role message named after the tool; its content reads back as the call's `location` argument (for `get_weather`) or `weather` argument (for `get_joke`), with "" for a missing key |
| `Chat.Dispatch` | main.go:107-146 | a response answers the turn exactly when it is a plain answer, which is appended verbatim; it aborts exactly on a failed request, with an API error, or on undecodable arguments, with bad arguments; a function call leaves the transcript unchanged exactly when the name is not registered, and otherwise appends one tool reply named after the call whose content reads back as the call's argument |
| `Chat.Turn` | main.go:69-147 | the inner loop never shortens the transcript and always reads at least one response when there is one; it ends unanswered only when no responses are left. `TurnStops`, `TurnAppends` and `EachCallAnsweredOnce` state what it reads and appends |
| `Chat.Converse` | main.go:49-148 | the outer loop never shortens the transcript, and it ends on the operator's word only when there was a line to read. `ConverseAppendOnly`, `UserLineAppended`, `AnsweredTurnContinues`, `FaultEndsSession`, `ResponsesRunOut`, `EndStopsConversation`, `LinesAfterSentinelIgnored` and `EndedOnlyBySentinel` state what it appends for each line, that it goes on to the next line after an answered turn, and how it ends |
| `Chat.ChatSession` | main.go:45-148 | a whole session's transcript is never empty; `SessionStartsWithSystemPrompt` shows that it begins with the system prompt |
| `Chat.RunChat` | main.go:45-147 | the two nested loops produce exactly the transcript and outcome of `ChatSession`, and the transcript always begins with the system prompt |
| `ChatProperties.TurnStops` | main.go:69-146 | with `k` leading function calls whose arguments decode, a turn reads exactly `k`+1 responses; it is answered exactly when response `k` is a plain answer, and aborted exactly when it is anything else: with an API error on a failed request, and with bad arguments on undecodable arguments; it is left unanswered only when the responses run out |
| `ChatProperties.TurnAppends` | main.go:114-146 | a turn's transcript is the old transcript, then the replies to the leading calls, then the answer if there is one; nothing else is appended |
| `ChatProperties.RepliesMatchCalls` | main.go:123-140 | the replies are one per registered-tool call, each a tool reply named after its call, in call order |
| `ChatProperties.EachCallAnsweredOnce` | main.go:114-146 | every registered tool the model calls is answered by exactly one reply with its name, in order, right after the transcript the turn started from |
| `ChatProperties.TurnAppendOnly` | main.go:127-143 | a turn keeps the transcript it started from as a prefix |
| `ChatProperties.TurnAnsweredOnlyByFinal` | main.go:141-146 | an answered turn read only function calls with decodable arguments before one plain answer, which is the last message of the transcript |
| `ChatProperties.FinalClosesTurn` | main.go:141-146 | a plain answer is appended verbatim and ends the turn, leaving the following responses unread |
| `ChatProperties.UnregisteredCallAsksAgain` | main.go:123-140 | a call of an unregistered name changes nothing, and the turn continues with the next response |
| `ChatProperties.WeatherCallReply` | main.go:124-131 | a `get_weather` call appends one `"function"` message named `get_weather` with `GetWeather` of the `location` argument, or of "" when it is absent |
| `ChatProperties.JokeCallReply` | main.go:132-139 | a `get_joke` call appends one `"function"` message named `get_joke` with `GetJoke` of the `weather` argument, or of "" when it is absent |
| `ChatProperties.FailedRequestAborts` | main.go:107-109 | a failed chat-completion request aborts the turn with an API error before anything is appended; `FaultEndsSession` shows that this ends the session |
| `ChatProperties.MalformedArgumentsAbort` | main.go:116-120 | undecodable arguments abort the turn before any tool runs, whatever the name, and leave the transcript unchanged; `FaultEndsSession` shows that this ends the session |
| `ChatProperties.FaultEndsSession` | main.go:107-120 | when a turn meets a failed request or undecodable arguments, the session ends with a fatal outcome naming that fault, and no later operator line is read |
| `ChatProperties.AnsweredTurnContinues` | main.go:49-148 | after an answered turn the outer loop goes on to the next operator line, from the transcript extended by the user message, the tool replies and the answer, with only the responses the turn did not read |
| `ChatProperties.ResponsesRunOut` | main.go:69-114 | when the responses run out during a turn's function calls, the session ends with `OutOfResponses` and a transcript of the user message followed by the replies to the calls read |
| `ChatProperties.EndCommandIff` | main.go:58 | a line is the sentinel if and only if it has three characters that spell e, n, d in any letter case; there is no trimming |
| `ChatProperties.EndCommandExamples` | main.go:57-61 | "end", "END" and "End" stop the loop; " end", "end ", "ends" and "" do not |
| `ChatProperties.EndStopsConversation` | main.go:57-61 | the sentinel ends the conversation with the transcript unchanged, whatever the model would have answered |
| `ChatProperties.LinesAfterSentinelIgnored` | main.go:57-61 | lines after a sentinel are never read and cannot change the session |
| `ChatProperties.EndedOnlyBySentinel` | main.go:49-61 | the conversation ends on the operator's word only if one of the lines was the sentinel |
| `ChatProperties.UserLineAppended` | main.go:63-67 | any other line is appended exactly once, as a `"user"` message with the line as content, right after the unchanged transcript; it is followed directly by the turn's tool replies and its answer, with nothing in between |
| `ChatProperties.ConverseAppendOnly` | main.go:49-148 | the outer loop keeps the transcript it started from as a prefix: nothing is removed, changed or reordered |
| `ChatProperties.SessionStartsWithSystemPrompt` | main.go:44-47 | every session's transcript starts with the system prompt, unchanged |

## Left out

- The chat-completion request is not modelled: its model name, its function schemas and `FunctionCall: "auto"` (main.go:71-105). The model's answers come from the response sequence instead. The API error path (main.go:107-109) is the outcome `Fatal(ApiError)`. The logged message and the process exit are not modelled.
- `json.Unmarshal` of the arguments is not modelled. The arguments arrive already decoded, and a decoding failure is `Malformed`, which leads to `Fatal(BadArguments)`.
- `resp.Choices[0]` on a response with no choices would panic in Go. This is not modelled: every response has exactly one message.
- Reading lines from standard input and printing to the console are I/O, and neither is modelled.
- The end of standard input is not modelled as the program behaves. The program ignores the result of `scanner.Scan()`. After the end of input `Text()` returns "". So the program would keep appending empty user messages and calling the API forever. In the model the operator's lines are a finite sequence. When they run out the session ends with `InputExhausted`, which stands in for that endless loop.
- The program has no bound on chained function calls. A model that never stops calling tools keeps it looping forever. Here the response sequence is finite, so such a run ends with `OutOfResponses`.
- `strings.ToLower` is modelled as ASCII lower-casing. It decides the sentinel check only through the characters `e`, `n` and `d`. The finer Unicode case mappings are not modelled.
- A message keeps only its role, name and content. The other fields of the final message, such as its function-call field, are not modelled.
- `getJoke2`, `toolLoop`, `test01`, `testFlows` and `main` (main.go:151-301) are not part of this model. They are thin wrappers over the Genkit library and the Google AI plugin, whose code is not available.
