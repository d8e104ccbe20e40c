/**
 What the chat loop promises about its transcript: it starts with the system
 prompt and only grows; the sentinel stops the loop without touching the
 transcript or asking the model; every other line adds one user message; every
 registered tool call is answered by exactly one reply in the "function" role,
 in order; an unregistered call is ignored and the model is asked again; and a
 turn is answered only by a plain answer.
 */
module ChatProperties {
  import opened Tools
  import opened Chat

  /** A response the inner loop handles by asking the model again. */
  predicate IsParsedCall(r: Response)
  {
    r.FunctionCall? && r.args.Parsed?
  }

  /** How many responses at the head of `rs` are function calls with decodable arguments. */
  function LeadingCalls(rs: seq<Response>): (k: nat)
    ensures k <= |rs|
    ensures forall j :: 0 <= j < k ==> IsParsedCall(rs[j])
    ensures k < |rs| ==> !IsParsedCall(rs[k])
  {
    if rs != [] && IsParsedCall(rs[0]) then 1 + LeadingCalls(rs[1..]) else 0
  }

  /** The names of the registered tools among the leading function calls of `rs`, in order. */
  function CalledTools(rs: seq<Response>): (names: seq<string>)
    ensures |names| <= LeadingCalls(rs)
  {
    if rs != [] && IsParsedCall(rs[0]) then
      (if IsRegistered(rs[0].name) then [rs[0].name] else []) + CalledTools(rs[1..])
    else []
  }

  /**
   Where one turn stops. With `k` the number of leading function calls whose
   arguments decode, the turn reads exactly `k` + 1 responses, or all of them
   when they run out. It is answered exactly when response `k` is a plain
   answer, and aborted exactly when it is anything else: with an API error on a
   failed request, and with bad arguments on a call whose arguments do not decode.
   */
  lemma {:induction false} TurnStops(t: seq<Message>, rs: seq<Response>)
    ensures var r := Turn(t, rs);
            var k := LeadingCalls(rs);
            && (k == |rs| ==> r.status == Unanswered && r.rest == [])
            && (k < |rs| ==> r.rest == rs[k + 1..])
            && (r.status == Answered <==> k < |rs| && rs[k].Final?)
            && (r.status.Aborted? <==> k < |rs| && !rs[k].Final?)
            && (k < |rs| && !rs[k].Final? ==> r.status == Aborted(if rs[k].Failed? then ApiError else BadArguments))
    decreases |rs|
  {
    if rs != [] && IsParsedCall(rs[0]) {
      var next := Dispatch(t, rs[0]).transcript;
      TurnStops(next, rs[1..]);
      if LeadingCalls(rs) < |rs| {
        assert rs[1..][LeadingCalls(rs[1..]) + 1..] == rs[LeadingCalls(rs) + 1..];
      }
    }
  }

  /** The tool replies the program writes for the leading function calls of `rs`, in order. */
  function ToolReplies(rs: seq<Response>): (replies: seq<Message>)
    ensures |replies| <= LeadingCalls(rs)
  {
    if rs != [] && IsParsedCall(rs[0]) then
      (match ToolReply(rs[0].name, rs[0].args.fields)
       case Some(m) => [m]
       case None => [])
      + ToolReplies(rs[1..])
    else []
  }

  /** The message that closes the turn on `rs`, if the first response after the calls is a plain answer. */
  function Closing(rs: seq<Response>): (closing: seq<Message>)
    ensures |closing| <= 1
  {
    var k := LeadingCalls(rs);
    if k < |rs| && rs[k].Final? then [rs[k].message] else []
  }

  /**
   What one turn appends: the replies to the leading function calls, then the
   answering message if there is one; nothing else, and `t` is kept intact.
   */
  lemma {:induction false} TurnAppends(t: seq<Message>, rs: seq<Response>)
    ensures Turn(t, rs).transcript == t + ToolReplies(rs) + Closing(rs)
    decreases |rs|
  {
    if rs != [] && IsParsedCall(rs[0]) {
      var next := Dispatch(t, rs[0]).transcript;
      TurnAppends(next, rs[1..]);
      assert Closing(rs) == Closing(rs[1..]);
      match ToolReply(rs[0].name, rs[0].args.fields)
      case Some(m) =>
        assert next == t + [m];
        assert ToolReplies(rs) == [m] + ToolReplies(rs[1..]);
      case None =>
        assert next == t;
        assert ToolReplies(rs) == ToolReplies(rs[1..]);
    } else if rs != [] && rs[0].Final? {
      assert Closing(rs) == [rs[0].message];
    }
  }

  /** Each reply answers one registered call, named after it and in the same order. */
  lemma {:induction false} RepliesMatchCalls(rs: seq<Response>)
    ensures |ToolReplies(rs)| == |CalledTools(rs)|
    ensures forall i :: 0 <= i < |CalledTools(rs)| ==>
              IsToolReply(ToolReplies(rs)[i]) && ToolReplies(rs)[i].name == CalledTools(rs)[i]
    decreases |rs|
  {
    if rs != [] && IsParsedCall(rs[0]) {
      RepliesMatchCalls(rs[1..]);
    }
  }

  /**
   Every registered tool the model calls during a turn is answered by exactly
   one tool reply carrying its name, in the order of the calls, right after the
   transcript the turn started from; an answered turn appends one message more.
   */
  lemma EachCallAnsweredOnce(t: seq<Message>, rs: seq<Response>)
    ensures var r := Turn(t, rs);
            var names := CalledTools(rs);
            && |r.transcript| == |t| + |names| + (if r.status == Answered then 1 else 0)
            && r.transcript[..|t|] == t
            && (forall i :: 0 <= i < |names| ==>
                  IsToolReply(r.transcript[|t| + i]) && r.transcript[|t| + i].name == names[i])
  {
    TurnStops(t, rs);
    TurnAppends(t, rs);
    RepliesMatchCalls(rs);
    var r := Turn(t, rs);
    assert r.transcript[..|t|] == t;
    forall i | 0 <= i < |CalledTools(rs)|
      ensures IsToolReply(r.transcript[|t| + i]) && r.transcript[|t| + i].name == CalledTools(rs)[i]
    {
      assert r.transcript[|t| + i] == ToolReplies(rs)[i];
    }
  }

  /** A turn never rewrites the transcript it starts from. */
  lemma TurnAppendOnly(t: seq<Message>, rs: seq<Response>)
    ensures t <= Turn(t, rs).transcript
  {
    TurnAppends(t, rs);
    assert (t + ToolReplies(rs) + Closing(rs))[..|t|] == t;
  }

  /**
   Only a plain answer ends a turn normally: every response read before it was
   a function call with decodable arguments, and the answer is the last message.
   */
  lemma TurnAnsweredOnlyByFinal(t: seq<Message>, rs: seq<Response>)
    requires Turn(t, rs).status == Answered
    ensures var r := Turn(t, rs);
            exists k :: 0 <= k < |rs| && rs[k].Final? && r.rest == rs[k + 1..] &&
                        (forall j :: 0 <= j < k ==> IsParsedCall(rs[j])) &&
                        |r.transcript| > 0 && r.transcript[|r.transcript| - 1] == rs[k].message
  {
    TurnStops(t, rs);
    TurnAppends(t, rs);
    var k := LeadingCalls(rs);
    assert rs[k].Final? && Closing(rs) == [rs[k].message];
  }

  /** A plain answer is appended verbatim and closes the turn. */
  lemma FinalClosesTurn(t: seq<Message>, m: Message, rs: seq<Response>)
    ensures Turn(t, [Final(m)] + rs) == TurnResult(t + [m], rs, Answered)
  {
  }

  /** A call of a tool that is not registered changes nothing, and the model is asked again. */
  lemma UnregisteredCallAsksAgain(t: seq<Message>, name: string, fields: map<string, string>, rs: seq<Response>)
    requires !IsRegistered(name)
    ensures Turn(t, [FunctionCall(name, Parsed(fields))] + rs) == Turn(t, rs)
  {
  }

  /** A `get_weather` call is answered by the weather report for its "location" argument, "" when absent. */
  lemma WeatherCallReply(t: seq<Message>, fields: map<string, string>)
    ensures Dispatch(t, FunctionCall("get_weather", Parsed(fields))) ==
            Call(t + [Message("function", "get_weather",
                              GetWeather(if "location" in fields then fields["location"] else ""))])
  {
  }

  /** A `get_joke` call is answered by the joke for its "weather" argument, "" when absent. */
  lemma JokeCallReply(t: seq<Message>, fields: map<string, string>)
    ensures Dispatch(t, FunctionCall("get_joke", Parsed(fields))) ==
            Call(t + [Message("function", "get_joke",
                              GetJoke(if "weather" in fields then fields["weather"] else ""))])
  {
  }

  /** Arguments that do not decode stop the program before any tool runs, whatever the name. */
  lemma MalformedArgumentsAbort(t: seq<Message>, name: string, rs: seq<Response>)
    ensures Turn(t, [FunctionCall(name, Malformed)] + rs) == TurnResult(t, rs, Aborted(BadArguments))
  {
  }

  /** A failed chat-completion request stops the program with an API error and leaves the transcript unchanged. */
  lemma FailedRequestAborts(t: seq<Message>, rs: seq<Response>)
    ensures Turn(t, [Failed] + rs) == TurnResult(t, rs, Aborted(ApiError))
  {
  }

  /** The sentinel is "end" in any mix of letter cases, and nothing else: no trimming. */
  lemma EndCommandIff(line: string)
    ensures IsEndCommand(line) <==>
            |line| == 3 && line[0] in "eE" && line[1] in "nN" && line[2] in "dD"
  {
  }

  lemma EndCommandExamples()
    ensures IsEndCommand("end") && IsEndCommand("END") && IsEndCommand("End")
    ensures !IsEndCommand(" end") && !IsEndCommand("end ") && !IsEndCommand("ends") && !IsEndCommand("")
  {
  }

  /** The sentinel stops the conversation at once: nothing is appended and no response is read. */
  lemma EndStopsConversation(t: seq<Message>, lines: seq<string>, rs: seq<Response>)
    requires lines != [] && IsEndCommand(lines[0])
    ensures Converse(t, lines, rs) == Session(t, Ended)
  {
  }

  /** The outer loop never rewrites the transcript it starts from. */
  lemma {:induction false} ConverseAppendOnly(t: seq<Message>, lines: seq<string>, rs: seq<Response>)
    ensures t <= Converse(t, lines, rs).transcript
    decreases |lines|
  {
    if lines != [] && !IsEndCommand(lines[0]) {
      var u := t + [UserMessage(lines[0])];
      var turn := Turn(u, rs);
      TurnAppendOnly(u, rs);
      assert t <= turn.transcript by {
        assert turn.transcript[..|t|] == turn.transcript[..|u|][..|t|];
      }
      if turn.status == Answered {
        var s := Converse(turn.transcript, lines[1..], turn.rest).transcript;
        ConverseAppendOnly(turn.transcript, lines[1..], turn.rest);
        assert s[..|t|] == s[..|turn.transcript|][..|t|];
      }
    }
  }

  /** Any other line is appended once as a user message right after the transcript so far. */
  lemma UserLineAppended(t: seq<Message>, lines: seq<string>, rs: seq<Response>)
    requires lines != [] && !IsEndCommand(lines[0])
    ensures t + [UserMessage(lines[0])] + ToolReplies(rs) + Closing(rs) <= Converse(t, lines, rs).transcript
  {
    var u := t + [UserMessage(lines[0])];
    var turn := Turn(u, rs);
    TurnAppends(u, rs);
    if turn.status == Answered {
      ConverseAppendOnly(turn.transcript, lines[1..], turn.rest);
    }
  }

  /**
   A turn that ends on a fault ends the session: the outcome is fatal with that
   fault, and no later operator line is read.
   */
  lemma FaultEndsSession(t: seq<Message>, lines: seq<string>, rs: seq<Response>)
    requires lines != [] && !IsEndCommand(lines[0])
    requires LeadingCalls(rs) < |rs| && !rs[LeadingCalls(rs)].Final?
    ensures Converse(t, lines, rs).outcome ==
            Fatal(if rs[LeadingCalls(rs)].Failed? then ApiError else BadArguments)
    ensures Converse(t, lines, rs) == Converse(t, lines[..1], rs)
  {
    TurnStops(t + [UserMessage(lines[0])], rs);
  }

  /**
   An answered turn does not end the conversation: the outer loop goes on to
   the next operator line, from the transcript the turn left, with the
   responses the turn did not read.
   */
  lemma AnsweredTurnContinues(t: seq<Message>, lines: seq<string>, rs: seq<Response>)
    requires lines != [] && !IsEndCommand(lines[0])
    requires LeadingCalls(rs) < |rs| && rs[LeadingCalls(rs)].Final?
    ensures Converse(t, lines, rs) ==
            Converse(t + [UserMessage(lines[0])] + ToolReplies(rs) + Closing(rs),
                     lines[1..], rs[LeadingCalls(rs) + 1..])
  {
    var u := t + [UserMessage(lines[0])];
    TurnStops(u, rs);
    TurnAppends(u, rs);
  }

  /**
   When the responses run out in the middle of a turn the session ends there,
   with the user message and the replies to the calls that were read.
   */
  lemma ResponsesRunOut(t: seq<Message>, lines: seq<string>, rs: seq<Response>)
    requires lines != [] && !IsEndCommand(lines[0])
    requires LeadingCalls(rs) == |rs|
    ensures Converse(t, lines, rs) == Session(t + [UserMessage(lines[0])] + ToolReplies(rs), OutOfResponses)
  {
    var u := t + [UserMessage(lines[0])];
    TurnStops(u, rs);
    TurnAppends(u, rs);
  }

  /** Every session's transcript starts with the system prompt, unchanged. */
  lemma SessionStartsWithSystemPrompt(lines: seq<string>, rs: seq<Response>)
    ensures var s := ChatSession(lines, rs).transcript;
            |s| >= 1 && s[0] == Message("system", "", SystemPrompt)
  {
    ConverseAppendOnly(Initial(), lines, rs);
  }

  /** The conversation ends on the operator's word only if some line was the sentinel. */
  lemma {:induction false} EndedOnlyBySentinel(t: seq<Message>, lines: seq<string>, rs: seq<Response>)
    requires Converse(t, lines, rs).outcome == Ended
    ensures exists k :: 0 <= k < |lines| && IsEndCommand(lines[k])
    decreases |lines|
  {
    if !IsEndCommand(lines[0]) {
      var turn := Turn(t + [UserMessage(lines[0])], rs);
      EndedOnlyBySentinel(turn.transcript, lines[1..], turn.rest);
      var k :| 0 <= k < |lines[1..]| && IsEndCommand(lines[1..][k]);
      assert IsEndCommand(lines[k + 1]);
    }
  }

  /** Lines after a sentinel are never read: they cannot change the session. */
  lemma {:induction false} LinesAfterSentinelIgnored(t: seq<Message>, lines: seq<string>, more: seq<string>, rs: seq<Response>)
    requires exists k :: 0 <= k < |lines| && IsEndCommand(lines[k])
    ensures Converse(t, lines + more, rs) == Converse(t, lines, rs)
    decreases |lines|
  {
    assert (lines + more)[0] == lines[0];
    if !IsEndCommand(lines[0]) {
      var turn := Turn(t + [UserMessage(lines[0])], rs);
      var k :| 0 <= k < |lines| && IsEndCommand(lines[k]);
      assert k > 0 && IsEndCommand(lines[1..][k - 1]);
      assert (lines + more)[1..] == lines[1..] + more;
      LinesAfterSentinelIgnored(turn.transcript, lines[1..], more, turn.rest);
    }
  }
}
