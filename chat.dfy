/**
 The conversation loop of `runChat`: a transcript of chat messages that starts
 with one system prompt and only ever grows. An outer loop reads operator lines
 until the sentinel "end"; for every other line it appends a user message and
 runs an inner loop that asks the model for a response, runs the tool the model
 calls (appending its reply in the "function" role) and stops at the first
 response that is not a function call, which it appends verbatim.

 The remote model and the operator's terminal are oracles: the model's answers
 arrive as a sequence of responses consumed in order, the operator's lines as a
 sequence of strings. When either runs out the session ends with an outcome
 saying so; the program itself would block or keep looping instead.
 */
module Chat {
  import opened Tools

  /** One chat-completion message; `name` is empty except on tool replies. */
  datatype Message = Message(role: string, name: string, content: string)

  /** The decoded arguments of a function call, or a JSON text that does not decode as a string map. */
  datatype Arguments = Parsed(fields: map<string, string>) | Malformed

  /** What one chat-completion request yields. */
  datatype Response =
    | FunctionCall(name: string, args: Arguments)  // the model asks for a tool
    | Final(message: Message)                      // a plain answer, with no function call
    | Failed                                       // the request itself returned an error

  /** The two conditions on which the program stops with a fatal log message. */
  datatype Fault = ApiError | BadArguments

  /** What a single response does to the transcript and to the inner loop. */
  datatype Step =
    | Call(transcript: seq<Message>)    // ask the model again
    | Answer(transcript: seq<Message>)  // the turn is over
    | Abort(fault: Fault)               // the program stops

  /** How one inner loop (one operator turn) ends. */
  datatype TurnStatus = Answered | Aborted(fault: Fault) | Unanswered

  /** The inner loop's result: the transcript, the responses it did not read, and how it ended. */
  datatype TurnResult = TurnResult(transcript: seq<Message>, rest: seq<Response>, status: TurnStatus)

  /** How the whole conversation ends. */
  datatype Outcome =
    | Ended                 // the operator typed the sentinel
    | Fatal(fault: Fault)   // the program stopped on an error
    | InputExhausted        // the operator's lines ran out
    | OutOfResponses        // the model's responses ran out in the middle of a turn

  datatype Session = Session(transcript: seq<Message>, outcome: Outcome)

  const SystemPrompt: string := "You are a helpful assistant. You can tell jokes about the weather."

  /** The transcript before the first turn: the system prompt alone. */
  function Initial(): (t: seq<Message>)
    ensures |t| == 1 && t[0].role == "system" && t[0].content == SystemPrompt
  {
    [Message("system", "", SystemPrompt)]
  }

  /** The message one operator line becomes: the line itself, in the user role. */
  function UserMessage(line: string): (m: Message)
    ensures m.role == "user" && m.content == line && m.name == ""
  {
    Message("user", "", line)
  }

  /** ASCII lower-casing of one character. */
  function LowerChar(c: char): (l: char)
  {
    if 'A' <= c <= 'Z' then (c as int - 'A' as int + 'a' as int) as char else c
  }

  /** ASCII lower-casing of a string, character by character. */
  function Lower(s: string): (r: string)
    ensures |r| == |s|
    ensures forall i :: 0 <= i < |s| ==> r[i] == LowerChar(s[i])
  {
    if s == [] then [] else [LowerChar(s[0])] + Lower(s[1..])
  }

  /** The operator line that ends the conversation: "end" in any letter case, untrimmed. */
  predicate IsEndCommand(line: string)
    ensures IsEndCommand(line) ==> |line| == 3
  {
    Lower(line) == "end"
  }

  /** A string argument of a function call; Go's map lookup yields "" for a missing key. */
  function Arg(fields: map<string, string>, key: string): (v: string)
    ensures key in fields ==> v == fields[key]
    ensures key !in fields ==> v == ""
  {
    if key in fields then fields[key] else ""
  }

  /** The names of the two tools the program can run. */
  predicate IsRegistered(name: string)
  {
    name == "get_weather" || name == "get_joke"
  }

  /** A message the program itself appends in reply to a registered tool call. */
  predicate IsToolReply(m: Message)
  {
    m.role == "function" &&
    ((m.name == "get_weather" && ReportedLocation(m.content).Some?) ||
     (m.name == "get_joke" && JokeSubject(m.content).Some?))
  }

  /** The reply to a call of `name`, or None when no tool of that name is registered. */
  function ToolReply(name: string, fields: map<string, string>): (m: Option<Message>)
    ensures m.Some? <==> IsRegistered(name)
    ensures m.Some? ==> IsToolReply(m.value) && m.value.name == name
    ensures name == "get_weather" ==> ReportedLocation(m.value.content) == Some(Arg(fields, "location"))
    ensures name == "get_joke" ==> JokeSubject(m.value.content) == Some(Arg(fields, "weather"))
  {
    if name == "get_weather" then
      Some(Message("function", "get_weather", GetWeather(Arg(fields, "location"))))
    else if name == "get_joke" then
      Some(Message("function", "get_joke", GetJoke(Arg(fields, "weather"))))
    else None
  }

  /** What one model response does to the transcript `t`. */
  function Dispatch(t: seq<Message>, r: Response): (step: Step)
    ensures step.Answer? <==> r.Final?
    ensures step.Abort? <==> r.Failed? || (r.FunctionCall? && r.args.Malformed?)
    ensures step.Abort? ==> step.fault == (if r.Failed? then ApiError else BadArguments)
    ensures step.Answer? ==> step.transcript == t + [r.message]
    ensures step.Call? ==> step.transcript == t ||
                           (|step.transcript| == |t| + 1 && step.transcript[..|t|] == t &&
                            IsToolReply(step.transcript[|t|]) && step.transcript[|t|].name == r.name)
    ensures step.Call? ==> (step.transcript == t <==> !IsRegistered(r.name))
    ensures step.Call? && r.name == "get_weather" ==>
              ReportedLocation(step.transcript[|t|].content) == Some(Arg(r.args.fields, "location"))
    ensures step.Call? && r.name == "get_joke" ==>
              JokeSubject(step.transcript[|t|].content) == Some(Arg(r.args.fields, "weather"))
  {
    match r
    case Failed => Abort(ApiError)
    case Final(m) => Answer(t + [m])
    case FunctionCall(name, args) =>
      match args
      case Malformed => Abort(BadArguments)
      case Parsed(fields) =>
        match ToolReply(name, fields)
        case Some(m) => Call(t + [m])
        case None => Call(t)
  }

  /** The inner loop of one turn, run on the responses `rs` still to come. */
  function Turn(t: seq<Message>, rs: seq<Response>): (r: TurnResult)
    ensures |t| <= |r.transcript|
    ensures |r.rest| < |rs| || (rs == [] && r.rest == [])
    ensures r.status == Unanswered ==> r.rest == []
    decreases |rs|
  {
    if rs == [] then TurnResult(t, [], Unanswered)
    else
      match Dispatch(t, rs[0])
      case Call(next) => Turn(next, rs[1..])
      case Answer(next) => TurnResult(next, rs[1..], Answered)
      case Abort(f) => TurnResult(t, rs[1..], Aborted(f))
  }

  /** The outer loop, from transcript `t`, on the operator lines and model responses still to come. */
  function Converse(t: seq<Message>, lines: seq<string>, rs: seq<Response>): (s: Session)
    ensures |t| <= |s.transcript|
    ensures s.outcome == Ended ==> lines != []
    decreases |lines|
  {
    if lines == [] then Session(t, InputExhausted)
    else if IsEndCommand(lines[0]) then Session(t, Ended)
    else
      var turn := Turn(t + [UserMessage(lines[0])], rs);
      match turn.status
      case Answered => Converse(turn.transcript, lines[1..], turn.rest)
      case Aborted(f) => Session(turn.transcript, Fatal(f))
      case Unanswered => Session(turn.transcript, OutOfResponses)
  }

  /** A whole session: the outer loop started on the system prompt. */
  function ChatSession(lines: seq<string>, rs: seq<Response>): (s: Session)
    ensures |s.transcript| >= 1
  {
    Converse(Initial(), lines, rs)
  }

  /**
   The chat loop itself: grows `messages` in place over two nested loops, leaving
   the outer one on the sentinel and the inner one on a plain answer.
   */
  method RunChat(lines: seq<string>, responses: seq<Response>) returns (messages: seq<Message>, outcome: Outcome)
    ensures Session(messages, outcome) == ChatSession(lines, responses)
    ensures Initial() <= messages
  {
    messages := Initial();
    var li, ri := 0, 0;
    while li < |lines|
      invariant 0 <= li <= |lines| && 0 <= ri <= |responses|
      invariant Converse(messages, lines[li..], responses[ri..]) == ChatSession(lines, responses)
      invariant Initial() <= messages
      decreases |lines| - li
    {
      var input := lines[li];
      if IsEndCommand(input) {
        outcome := Ended;
        return;
      }
      messages := messages + [UserMessage(input)];
      ghost var turn := Turn(messages, responses[ri..]);
      assert turn.status.Answered? ==> Converse(turn.transcript, lines[li + 1..], turn.rest) == ChatSession(lines, responses);
      while true
        invariant 0 <= ri <= |responses|
        invariant Turn(messages, responses[ri..]) == turn
        invariant Initial() <= messages
        decreases |responses| - ri
      {
        if ri == |responses| {
          outcome := OutOfResponses;
          return;
        }
        var step := Dispatch(messages, responses[ri]);
        assert responses[ri..][1..] == responses[ri + 1..];
        ri := ri + 1;
        match step
        case Abort(f) =>
          outcome := Fatal(f);
          return;
        case Call(next) =>
          messages := next;
        case Answer(next) =>
          messages := next;
          break;
      }
      li := li + 1;
    }
    outcome := InputExhausted;
  }
}
