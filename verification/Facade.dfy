// One chat call with its checks, the structured call, and the bounded loop between a model and its tools.
module Facade {
  import opened JsonSchema
  import opened Tools

  datatype Role = System | User | Assistant | Tool

  datatype Message = Message(role: Role, content: string, calls: seq<ToolCall>, toolName: Option<string>)

  datatype Usage = Usage(input: nat, output: nat)

  datatype Request = Request(messages: seq<Message>, schema: Option<Json>, tools: seq<Declaration>,
    model: Option<string>)

  // `structured` holds a payload; a null payload cannot be told from none.
  datatype Response = Response(message: Message, usage: Usage, refused: bool, structured: Option<Json>, rounds: nat)

  datatype Capabilities = Capabilities(tools: bool, structuredOutput: bool)

  datatype Error =
    | BadRequest
    | Unsupported(capability: string)
    | ProviderFailed
    | Refusal
    | NotJson
    | NotValid(path: seq<Step>, keyword: Keyword)
    | NoStructuredPayload
    | NotAllowed(tool: string)
    | RoundLimit(tool: string)
    | CancelledError
    | RenderFailed

  datatype Result<T> = Success(value: T) | Failure(error: Error)

  datatype Reply = Replied(response: Response) | Broken

  // A provider may answer a request in the light of every request before it.
  type Provider = seq<Request> -> Reply

  // The payload a text is JSON for, and the JSON text a tool result is sent back as; some have none.
  type Parser = string -> Option<Json>
  type Renderer = ToolResult -> Option<string>

  ghost predicate UsableRequest(request: Request) {
    request.messages != [] && (request.schema.Some? ==> UsableSchema(request.schema.value))
  }

  // --- One call ---

  function CheckRequest(request: Request, capabilities: Option<Capabilities>): Option<Error> {
    match capabilities
    case None => Some(Unsupported("capabilities"))
    case Some(claimed) =>
      if request.tools != [] && !claimed.tools then Some(Unsupported("tools"))
      else if request.schema.Some? && !claimed.structuredOutput then Some(Unsupported("structured_output"))
      else None
  }

  // The capabilities a request needs, by the names they are claimed under.
  function Needed(request: Request): set<string> {
    (if request.tools == [] then {} else {"tools"}) + if request.schema.None? then {} else {"structured_output"}
  }

  function Claimed(capabilities: Capabilities): set<string> {
    (if capabilities.tools then {"tools"} else {}) + if capabilities.structuredOutput then {"structured_output"} else {}
  }

  // A request passes exactly if all it needs is claimed, and otherwise something it needs and nobody
  // claims is named.
  lemma NeedsAreClaimed(request: Request, capabilities: Option<Capabilities>)
    ensures CheckRequest(request, capabilities).None? <==>
      capabilities.Some? && Needed(request) <= Claimed(capabilities.value)
    ensures CheckRequest(request, capabilities).Some? ==>
      && CheckRequest(request, capabilities).value.Unsupported?
      && var name := CheckRequest(request, capabilities).value.capability;
         if capabilities.None? then name == "capabilities"
         else name in Needed(request) && name !in Claimed(capabilities.value)
  {
    assert "tools" != "structured_output";
  }

  // What becomes of a provider's reply: a refusal raises, and a final answer has to carry a valid
  // payload when the request named a schema. As long as tools are asked for, nothing is checked.
  function Concluded(request: Request, reply: Reply, parse: Parser): Result<Response> {
    match reply
    case Broken => Failure(ProviderFailed)
    case Replied(response) =>
      if response.refused then Failure(Refusal)
      else if request.schema.None? || response.message.calls != [] then Success(response)
      else
        match parse(response.message.content)
        case None => Failure(NotJson)
        case Some(payload) =>
          match ValidatePayload(payload, request.schema.value)
          case Fits(_) => Success(response.(structured := if payload.Null? then None else Some(payload)))
          case Misfit(error) =>
            match error
            case RequestError(_) => Failure(BadRequest)
            case SchemaError(path, keyword) => Failure(NotValid(path, keyword))
  }

  function Payload(response: Result<Response>): Result<Json> {
    match response
    case Failure(error) => Failure(error)
    case Success(answer) =>
      if answer.structured.None? then Failure(NoStructuredPayload) else Success(answer.structured.value)
  }

  // The reply is a final answer whose text is a payload the schema describes.
  ghost predicate SpeaksTheSchema(request: Request, reply: Reply, parse: Parser) {
    && reply.Replied? && !reply.response.refused && reply.response.message.calls == []
    && request.schema.Some?
    && parse(reply.response.message.content).Some?
    && Satisfies(parse(reply.response.message.content).value, request.schema.value)
  }

  // A call succeeds exactly when the model answers without refusing and, where a schema applies,
  // speaks it. Nothing of the answer changes but the payload it is given.
  lemma {:induction false} AnswersAreChecked(request: Request, reply: Reply, parse: Parser)
    requires UsableRequest(request)
    ensures Concluded(request, reply, parse).Success? <==>
      && reply.Replied? && !reply.response.refused
      && (request.schema.None? || reply.response.message.calls != [] || SpeaksTheSchema(request, reply, parse))
    ensures Concluded(request, reply, parse).Success? ==>
      Concluded(request, reply, parse).value.(structured := reply.response.structured) == reply.response
  {
    if reply.Replied? && request.schema.Some? && parse(reply.response.message.content).Some? {
      PayloadIsDecided(parse(reply.response.message.content).value, request.schema.value);
    }
    hide Satisfies, UsableSchema, ValidatePayload;
  }

  // What it means that a call fails with this error.
  ghost predicate FailsOf(request: Request, reply: Reply, parse: Parser, error: Error) {
    match error
    case ProviderFailed => reply.Broken?
    case Refusal => reply.Replied? && reply.response.refused
    case NotJson => IsFinal(request, reply) && parse(reply.response.message.content).None?
    case NotValid(path, keyword) =>
      && IsFinal(request, reply) && parse(reply.response.message.content).Some?
      && var payload := parse(reply.response.message.content).value;
         Names(Rejected(path, keyword), payload, request.schema.value, [], path)
    case _ => false
  }

  // The answer a schema applies to: it asks for no tools and is no refusal.
  predicate IsFinal(request: Request, reply: Reply) {
    request.schema.Some? && reply.Replied? && !reply.response.refused && reply.response.message.calls == []
  }

  lemma FailuresTell(request: Request, reply: Reply, parse: Parser)
    requires UsableRequest(request) && Concluded(request, reply, parse).Failure?
    ensures FailsOf(request, reply, parse, Concluded(request, reply, parse).error)
  {
    if reply.Replied? && request.schema.Some? && parse(reply.response.message.content).Some? {
      PayloadIsDecided(parse(reply.response.message.content).value, request.schema.value);
    }
    hide Satisfies, Names, ValidatePayload;
  }

  // A structured call returns what the model said, valid, except when the model asks for tools in
  // the same response: then it returns whatever payload the adapter had put there.
  lemma {:induction false} StructuredPayloads(request: Request, reply: Reply, parse: Parser, payload: Json)
    requires UsableRequest(request) && request.schema.Some?
    ensures Payload(Concluded(request, reply, parse)) == Success(payload) <==>
      || (SpeaksTheSchema(request, reply, parse) && parse(reply.response.message.content) == Some(payload) &&
        payload != Null)
      || (reply.Replied? && !reply.response.refused && reply.response.message.calls != []
          && reply.response.structured == Some(payload))
  {
    if reply.Replied? && parse(reply.response.message.content).Some? {
      PayloadIsDecided(parse(reply.response.message.content).value, request.schema.value);
    }
    hide Satisfies, UsableSchema, ValidatePayload;
  }

  // The call promises a payload whenever the model speaks the schema; it keeps that promise for
  // every payload but null, which a schema may well describe.
  lemma NullIsTheOnlyPayloadLost(request: Request, reply: Reply, parse: Parser)
    requires UsableRequest(request) && SpeaksTheSchema(request, reply, parse)
    ensures Payload(Concluded(request, reply, parse)).Success? <==> parse(reply.response.message.content) != Some(Null)
    ensures Payload(Concluded(request, reply, parse)).Failure? ==>
      Payload(Concluded(request, reply, parse)) == Failure(NoStructuredPayload)
  {
    PayloadIsDecided(parse(reply.response.message.content).value, request.schema.value);
    hide Satisfies, UsableSchema, ValidatePayload;
  }

  // --- The loop ---

  predicate Renderable(results: seq<ToolResult>, render: Renderer) {
    forall k :: 0 <= k < |results| ==> render(results[k]).Some?
  }

  function ToolMessages(results: seq<ToolResult>, render: Renderer): (r: seq<Message>)
    requires Renderable(results, render)
    ensures |r| == |results|
  {
    seq(|results|, k requires 0 <= k < |results| => Message(Tool, render(results[k]).value, [], Some(results[k].tool)))
  }

  // One round: the request sent, what the call made of the reply, and the tool results that follow.
  datatype Turn = Turn(request: Request, answer: Result<Response>, results: seq<ToolResult>)

  function Requests(turns: seq<Turn>): (r: seq<Request>)
    ensures |r| == |turns|
  {
    seq(|turns|, k requires 0 <= k < |turns| => turns[k].request)
  }

  // All calls of the rounds that went on to another one.
  function AllCalls(turns: seq<Turn>): seq<ToolCall> {
    if turns == [] then [] else
      var last := turns[|turns| - 1];
      AllCalls(turns[..|turns| - 1]) + if last.answer.Success? then last.answer.value.message.calls else []
  }

  function TotalUsage(turns: seq<Turn>): Usage {
    if turns == [] then Usage(0, 0) else
      var last := turns[|turns| - 1];
      var rest := TotalUsage(turns[..|turns| - 1]);
      if last.answer.Success?
      then Usage(rest.input + last.answer.value.usage.input, rest.output + last.answer.value.usage.output)
      else rest
  }

  // What the next request has to say once a round's tools have answered.
  function Continued(turn: Turn, render: Renderer): seq<Message>
    requires turn.answer.Success? && Renderable(turn.results, render)
  {
    turn.request.messages + [turn.answer.value.message] + ToolMessages(turn.results, render)
  }

  // The fixed surroundings of one run.
  datatype Setting = Setting(
    request: Request, specs: seq<Declaration>, provider: Provider, parse: Parser, render: Renderer,
    tools: Allowlist, handlers: Handlers, sent: seq<Request>, ran: seq<ToolCall>)

  // The messages a round starts from: the caller's, or the round before with its results.
  ghost predicate Follows(s: Setting, turns: seq<Turn>, k: nat)
    requires k < |turns|
  {
    && turns[k].request == s.request.(messages := turns[k].request.messages, tools := s.specs)
    && turns[k].answer == Concluded(turns[k].request, s.provider(s.sent + Requests(turns[..k + 1])), s.parse)
    && if k == 0 then turns[k].request.messages == s.request.messages
       else turns[k - 1].answer.Success? && Renderable(turns[k - 1].results, s.render)
            && turns[k].request.messages == Continued(turns[k - 1], s.render)
  }

  // A round that went on: the model asked for tools, every call was answered in its place, and every
  // answer could be sent back.
  ghost predicate WentOn(s: Setting, turns: seq<Turn>, k: nat)
    requires k < |turns|
  {
    && turns[k].answer.Success?
    && var calls := turns[k].answer.value.message.calls;
       && calls != [] && |turns[k].results| == |calls| && Renderable(turns[k].results, s.render)
       && Answered(s.tools, s.handlers, s.ran + RunnableOnly(s.tools, AllCalls(turns[..k])), calls, turns[k].results)
  }

  ghost predicate Conversation(s: Setting, turns: seq<Turn>) {
    && (forall k :: 0 <= k < |turns| ==> Follows(s, turns, k))
    && (forall k :: 0 <= k < |turns| - 1 ==> WentOn(s, turns, k))
  }

  // How a run ends, told from its last round.
  ghost predicate Ends(s: Setting, turns: seq<Turn>, rounds: int, result: Result<Response>) {
    && 0 < |turns| <= rounds
    && var last := turns[|turns| - 1].answer;
       match last
       case Failure(error) => result == Failure(error)
       case Success(answer) =>
         var calls := answer.message.calls;
         if calls == [] then result == Success(answer.(usage := TotalUsage(turns), rounds := |turns|))
         else if |turns| == rounds then result == Failure(RoundLimit(calls[0].name))
         else Stopped(s, turns, calls, result)
  }

  // The tools of the last round stopped at a call that is not allowed, or whose handler was cancelled,
  // or they all answered and an answer could not be sent back.
  ghost predicate Stopped(s: Setting, turns: seq<Turn>, calls: seq<ToolCall>, result: Result<Response>)
    requires 0 < |turns|
  {
    var before := s.ran + RunnableOnly(s.tools, AllCalls(turns[..|turns| - 1]));
    var answered := turns[|turns| - 1].results;
    && result.Failure? && Answered(s.tools, s.handlers, before, calls, answered)
    && match result.error
       case NotAllowed(tool) => StopsAt(s.tools, s.handlers, before, calls, RefusedCall(tool), |answered|)
       case CancelledError => StopsAt(s.tools, s.handlers, before, calls, InterruptedCall, |answered|)
       case RenderFailed => |answered| == |calls| && !Renderable(answered, s.render)
       case _ => false
  }

  // The calls whose handlers a whole run reached.
  ghost function Reached(s: Setting, turns: seq<Turn>, result: Result<Response>): seq<ToolCall>
    requires 0 < |turns|
  {
    RunnableOnly(s.tools, AllCalls(turns[..|turns| - 1])) + ReachedLast(s.tools, turns[|turns| - 1], result)
  }

  // Those of its last round: up to the call it stopped at, which is one of them if it was cancelled.
  ghost function ReachedLast(tools: Allowlist, last: Turn, result: Result<Response>): seq<ToolCall> {
    if last.answer.Failure? then []
    else
      var calls := last.answer.value.message.calls;
      var reached := |last.results| + if result == Failure(CancelledError) then 1 else 0;
      RunnableOnly(tools, if reached <= |calls| then calls[..reached] else calls)
  }

  // What was said in one request stays said in every later one.
  lemma {:induction false} MessagesOnlyGrow(s: Setting, turns: seq<Turn>, i: nat, j: nat)
    requires Conversation(s, turns) && i <= j < |turns|
    ensures |turns[i].request.messages| <= |turns[j].request.messages|
    ensures turns[j].request.messages[..|turns[i].request.messages|] == turns[i].request.messages
    decreases j
  {
    if i < j {
      MessagesOnlyGrow(s, turns, i, j - 1);
      assert Follows(s, turns, j);
    }
  }

  // Every call of an earlier round has its result in every later request: the message at its own
  // place after the response that made the call, under the name of the tool it asked for, with the text
  // for a result that tells what the tool's handler did on the history of all calls run before.
  lemma EveryCallIsAnswered(s: Setting, turns: seq<Turn>, i: nat, j: nat, c: nat)
    requires Conversation(s, turns) && i < j < |turns|
    requires turns[i].answer.Success? && c < |turns[i].answer.value.message.calls|
    ensures var asked, calls := |turns[i].request.messages|, turns[i].answer.value.message.calls;
      && asked + 1 + |calls| <= |turns[j].request.messages| && |turns[i].results| == |calls|
      && (j == i + 1 ==> |turns[j].request.messages| == asked + 1 + |calls|)
      && turns[j].request.messages[asked] == turns[i].answer.value.message
      && var said, result := turns[j].request.messages[asked + 1 + c], turns[i].results[c];
         && said.role == Tool && said.toolName == Some(calls[c].name) && said.calls == []
         && s.render(result) == Some(said.content)
         && Tells(s.tools, s.handlers, RanBefore(s, turns, i, c), calls[c], result)
  {
    hide RunnableOnly, AllCalls, Concluded, Runnable, Tells;
    MessagesOnlyGrow(s, turns, i + 1, j);
    assert turns[i + 1].request.messages == Continued(turns[i], s.render) by { assert Follows(s, turns, i + 1); }
    ResultsNameTheirCalls(s, turns, i, c);
    hide Follows, WentOn, Conversation;
    var next, later := turns[i + 1].request.messages, turns[j].request.messages;
    assert next == later[..|next|];
  }

  // The calls that ran before the `c`-th call of a round.
  ghost function RanBefore(s: Setting, turns: seq<Turn>, i: nat, c: nat): seq<ToolCall>
    requires i < |turns| && turns[i].answer.Success? && c < |turns[i].answer.value.message.calls|
  {
    s.ran + RunnableOnly(s.tools, AllCalls(turns[..i])) +
      RunnableOnly(s.tools, turns[i].answer.value.message.calls[..c])
  }

  lemma ResultsNameTheirCalls(s: Setting, turns: seq<Turn>, i: nat, c: nat)
    requires Conversation(s, turns) && i < |turns| - 1
    requires turns[i].answer.Success? && c < |turns[i].answer.value.message.calls|
    ensures var calls := turns[i].answer.value.message.calls;
      && |turns[i].results| == |calls| && turns[i].results[c].tool == calls[c].name
      && Tells(s.tools, s.handlers, RanBefore(s, turns, i, c), calls[c], turns[i].results[c])
  {
    hide RunnableOnly, AllCalls, Concluded, Runnable, Follows;
    assert WentOn(s, turns, i);
    var calls := turns[i].answer.value.message.calls;
    ResultsTell(s.tools, s.handlers, s.ran + RunnableOnly(s.tools, AllCalls(turns[..i])), calls, turns[i].results, c);
    hide Answered;
  }

  // Rounds so far that all went on.
  ghost predicate Ongoing(s: Setting, turns: seq<Turn>) {
    Conversation(s, turns) && (turns != [] ==> WentOn(s, turns, |turns| - 1))
  }

  // The messages the next round has to send.
  ghost function Upcoming(s: Setting, turns: seq<Turn>): seq<Message>
    requires Ongoing(s, turns)
  {
    if turns == [] then s.request.messages else Continued(turns[|turns| - 1], s.render)
  }

  // One more round, which sent what was upcoming.
  lemma OneMoreRound(s: Setting, turns: seq<Turn>, turn: Turn)
    requires Ongoing(s, turns)
    requires turn.request == s.request.(messages := Upcoming(s, turns), tools := s.specs)
    requires turn.answer == Concluded(turn.request, s.provider(s.sent + Requests(turns) + [turn.request]), s.parse)
    ensures Conversation(s, turns + [turn])
    ensures Requests(turns + [turn]) == Requests(turns) + [turn.request]
  {
    hide RunnableOnly, AllCalls, Concluded;
    var longer := turns + [turn];
    assert longer[..|turns| + 1] == longer && longer[..|turns|] == turns;
    assert s.sent + Requests(turns) + [turn.request] == s.sent + Requests(longer);
    forall k | 0 <= k < |longer| ensures Follows(s, longer, k) && (k < |turns| ==> WentOn(s, longer, k)) {
      if k < |turns| {
        assert Follows(s, turns, k) && WentOn(s, turns, k);
        assert longer[..k + 1] == turns[..k + 1] && longer[..k] == turns[..k];
      }
    }
  }

  lemma RoundWentOn(s: Setting, turns: seq<Turn>, turn: Turn)
    requires Conversation(s, turns + [turn]) && turn.answer.Success?
    requires var calls := turn.answer.value.message.calls;
      && calls != [] && |turn.results| == |calls| && Renderable(turn.results, s.render)
      && Answered(s.tools, s.handlers, s.ran + RunnableOnly(s.tools, AllCalls(turns)), calls, turn.results)
    ensures Ongoing(s, turns + [turn])
    ensures AllCalls(turns + [turn]) == AllCalls(turns) + turn.answer.value.message.calls
  {
    assert (turns + [turn])[..|turns|] == turns;
  }

  lemma {:induction false} RunnableOnlyJoins(tools: Allowlist, a: seq<ToolCall>, b: seq<ToolCall>)
    ensures RunnableOnly(tools, a + b) == RunnableOnly(tools, a) + RunnableOnly(tools, b)
    decreases |b|
  {
    if b == [] {
      assert a + b == a;
    } else {
      var n := |b| - 1;
      assert (a + b)[..|a| + n] == a + b[..n];
      RunnableOnlyJoins(tools, a, b[..n]);
    }
  }

  lemma NoRounds(s: Setting)
    ensures Ongoing(s, []) && Upcoming(s, []) == s.request.messages
    ensures TotalUsage([]) == Usage(0, 0) && RunnableOnly(s.tools, AllCalls([])) == []
  {
  }

  datatype RoundEnd = Finished(result: Result<Response>) | More(messages: seq<Message>, usage: Usage)

  lemma ProviderNeverCancels(request: Request, reply: Reply, parse: Parser)
    ensures Concluded(request, reply, parse) != Failure(CancelledError)
  {
  }

  lemma UsageAdds(turns: seq<Turn>, turn: Turn)
    requires turn.answer.Success?
    ensures TotalUsage(turns + [turn]) == Usage(
      TotalUsage(turns).input + turn.answer.value.usage.input,
      TotalUsage(turns).output + turn.answer.value.usage.output)
  {
    assert (turns + [turn])[..|turns|] == turns;
  }

  lemma EndsWithoutTools(s: Setting, turns: seq<Turn>, turn: Turn, rounds: int, result: Result<Response>)
    requires |turns| < rounds && turn.results == []
    requires match turn.answer
      case Failure(error) => result == turn.answer
      case Success(answer) =>
        if answer.message.calls == [] then result ==
          Success(answer.(usage := TotalUsage(turns + [turn]), rounds := |turns| + 1))
        else |turns| + 1 == rounds && result == Failure(RoundLimit(answer.message.calls[0].name))
    ensures Ends(s, turns + [turn], rounds, result)
    ensures Reached(s, turns + [turn], result) == RunnableOnly(s.tools, AllCalls(turns))
  {
    ReachedInTheTools(s, turns, turn, result);
    NoneReached(s.tools, turn, result);
    hide RunnableOnly, Runnable, AllCalls, TotalUsage, Reached, ReachedLast, Stopped;
  }

  lemma NoneReached(tools: Allowlist, turn: Turn, result: Result<Response>)
    requires turn.results == [] && (turn.answer.Success? ==> result != Failure(CancelledError))
    ensures ReachedLast(tools, turn, result) == []
  {
    hide Runnable;
  }

  lemma UpcomingAfter(s: Setting, turns: seq<Turn>, turn: Turn)
    requires Ongoing(s, turns + [turn])
    ensures turn.answer.Success? && Renderable(turn.results, s.render) &&
      Upcoming(s, turns + [turn]) == Continued(turn, s.render)
  {
    hide Conversation;
  }

  lemma StopIsInside(s: Setting, before: seq<ToolCall>, calls: seq<ToolCall>, end: BatchEnd, answered: seq<ToolResult>)
    requires Answered(s.tools, s.handlers, before, calls, answered) &&
      StopsAt(s.tools, s.handlers, before, calls, end, |answered|)
    ensures |answered| <= |calls| && (|answered| == |calls| <==> end.Done?)
  {
    hide Runnable, RunnableOnly;
  }

  // The results of the last round bear on none of the rounds so far.
  lemma ResultsSettleNothingElse(s: Setting, turns: seq<Turn>, asked: Turn, results: seq<ToolResult>)
    requires Conversation(s, turns + [asked])
    ensures Conversation(s, turns + [asked.(results := results)])
    ensures Requests(turns + [asked.(results := results)]) == Requests(turns + [asked])
    ensures TotalUsage(turns + [asked.(results := results)]) == TotalUsage(turns + [asked])
  {
    hide RunnableOnly, AllCalls, Concluded, Answered;
    var was, now := turns + [asked], turns + [asked.(results := results)];
    assert was[..|turns|] == now[..|turns|] == turns;
    assert Requests(now) == Requests(was);
    forall k | 0 <= k < |now| ensures Follows(s, now, k) && (k < |turns| ==> WentOn(s, now, k)) {
      assert Follows(s, was, k) && (k < |turns| ==> WentOn(s, was, k));
      assert Requests(now[..k + 1]) == Requests(now)[..k + 1] == Requests(was[..k + 1]);
      if k < |turns| {
        assert now[..k] == was[..k];
      }
    }
  }

  lemma EndsInTheTools(s: Setting, turns: seq<Turn>, turn: Turn, rounds: int, result: Result<Response>)
    requires |turns| + 1 < rounds && turn.answer.Success? && turn.answer.value.message.calls != []
    requires Stopped(s, turns + [turn], turn.answer.value.message.calls, result)
    ensures Ends(s, turns + [turn], rounds, result)
  {
    hide RunnableOnly, Runnable, Answered, AllCalls, TotalUsage, Stopped, StopsAt;
  }

  lemma ReachedInTheTools(s: Setting, turns: seq<Turn>, turn: Turn, result: Result<Response>)
    ensures Reached(s, turns + [turn], result) ==
      RunnableOnly(s.tools, AllCalls(turns)) + ReachedLast(s.tools, turn, result)
  {
    hide RunnableOnly, AllCalls, ReachedLast;
    assert (turns + [turn])[..|turns|] == turns;
  }

  class AIFacade {
    const provider: Provider
    const parse: Parser
    const render: Renderer
    const capabilities: Option<Capabilities>
    var sent: seq<Request>

    constructor (provider: Provider, parse: Parser, render: Renderer, capabilities: Option<Capabilities>)
      ensures this.provider == provider && this.parse == parse && this.render == render
      ensures this.capabilities == capabilities && sent == []
    {
      this.provider, this.parse, this.render, this.capabilities := provider, parse, render, capabilities;
      sent := [];
    }

    // A request that needs what the provider does not claim is never sent.
    method Chat(request: Request) returns (result: Result<Response>)
      requires UsableRequest(request)
      modifies this
      ensures CheckRequest(request, capabilities).Some? ==>
        sent == old(sent) && result == Failure(CheckRequest(request, capabilities).value)
      ensures CheckRequest(request, capabilities).None? ==>
        sent == old(sent) + [request] && result == Concluded(request, provider(sent), parse)
    {
      var refused := CheckRequest(request, capabilities);
      if refused.Some? {
        return Failure(refused.value);
      }
      sent := sent + [request];
      result := Concluded(request, provider(sent), parse);
    }

    method Structured(request: Request) returns (result: Result<Json>)
      requires UsableRequest(request)
      modifies this
      ensures request.schema.None? ==> result == Failure(BadRequest) && sent == old(sent)
      ensures request.schema.Some? && CheckRequest(request, capabilities).Some? ==>
        sent == old(sent) && result == Failure(CheckRequest(request, capabilities).value)
      ensures request.schema.Some? && CheckRequest(request, capabilities).None? ==>
        sent == old(sent) + [request] && result == Payload(Concluded(request, provider(sent), parse))
    {
      if request.schema.None? {
        return Failure(BadRequest);
      }
      var response := Chat(request);
      result := Payload(response);
    }

    // What a run is refused for before any request is sent.
    function Barred(request: Request, specs: seq<Declaration>, maxRounds: int): Option<Error> {
      if maxRounds < 1 then Some(BadRequest)
      else if capabilities.None? then Some(Unsupported("capabilities"))
      else if !capabilities.value.tools then Some(Unsupported("tools"))
      else CheckRequest(request.(tools := specs), capabilities)
    }

    ghost function SettingOf(request: Request, tools: ToolSet): Setting
      requires tools.Valid()
      reads this, tools
    {
      Setting(request, Specs(tools.names, tools.tools), provider, parse, render, tools.tools, tools.handlers,
        sent, tools.ran)
    }

    ghost predicate Within(s: Setting, tools: ToolSet)
      reads tools`tools
    {
      s.provider == provider && s.parse == parse && s.render == render && s.tools == tools.tools &&
        s.handlers == tools.handlers
    }

    // What both sides have been asked after some rounds that went on.
    ghost predicate At(s: Setting, tools: ToolSet, turns: seq<Turn>)
      reads this, tools
    {
      && tools.Valid() && Ongoing(s, turns)
      && sent == s.sent + Requests(turns)
      && tools.ran == s.ran + RunnableOnly(s.tools, AllCalls(turns))
    }

    // How a run leaves both sides.
    ghost predicate After(s: Setting, tools: ToolSet, turns: seq<Turn>, rounds: int, result: Result<Response>)
      reads this, tools
    {
      && tools.Valid() && Conversation(s, turns) && Ends(s, turns, rounds, result)
      && sent == s.sent + Requests(turns)
      && tools.ran == s.ran + Reached(s, turns, result)
    }

    // One round after `turns`: it ends the run, or says what the next one sends and the usage so far.
    method Round(ghost s: Setting, ghost turns: seq<Turn>, current: Request, usage: Usage, tools: ToolSet, round: int,
        rounds: int)
      returns (next: RoundEnd, ghost turn: Turn)
      requires Within(s, tools) && At(s, tools, turns)
      requires current == s.request.(messages := Upcoming(s, turns), tools := s.specs) && UsableRequest(current)
      requires CheckRequest(current, capabilities).None?
      requires usage == TotalUsage(turns) && |turns| + 1 == round <= rounds
      modifies this, tools`sequence, tools`events, tools`ran
      ensures Within(s, tools)
      ensures next.More? ==> At(s, tools, turns + [turn]) && round < rounds
      ensures next.More? ==>
        next.messages == Upcoming(s, turns + [turn]) && next.usage == TotalUsage(turns + [turn]) && next.messages != []
      ensures next.Finished? ==> After(s, tools, turns + [turn], rounds, next.result)
      ensures tools.audited && Paired(old(tools.events)) ==>
        (Paired(tools.events) <==> next != Finished(Failure(CancelledError)))
    {
      hide ToolSet.Valid, Concluded, Runnable, RunnableOnly, AllCalls, TotalUsage, Answered, StopsAt, BatchTrail,
        Paired, GapFree;
      hide Follows, WentOn, Conversation, Ongoing, Upcoming, Ends, Reached, UsableSchema, CheckRequest;
      var answer := Chat(current);
      turn := Turn(current, answer, []);
      OneMoreRound(s, turns, turn);
      ProviderNeverCancels(current, provider(sent), parse);
      if answer.Failure? {
        EndsWithoutTools(s, turns, turn, rounds, answer);
        return Finished(answer), turn;
      }
      var total := Usage(usage.input + answer.value.usage.input, usage.output + answer.value.usage.output);
      UsageAdds(turns, turn);
      var calls := answer.value.message.calls;
      if calls == [] {
        var final := Success(answer.value.(usage := total, rounds := round));
        EndsWithoutTools(s, turns, turn, rounds, final);
        return Finished(final), turn;
      }
      if round == rounds {
        EndsWithoutTools(s, turns, turn, rounds, Failure(RoundLimit(calls[0].name)));
        return Finished(Failure(RoundLimit(calls[0].name))), turn;
      }
      next, turn := UseTools(s, turns, current, answer.value, total, tools, rounds);
    }

    // The second half of a round: the tools the model asked for.
    method UseTools(ghost s: Setting, ghost turns: seq<Turn>, current: Request, answer: Response, total: Usage,
        tools: ToolSet, rounds: int)
      returns (next: RoundEnd, ghost turn: Turn)
      requires Within(s, tools) && tools.Valid() && Ongoing(s, turns)
      requires var asked := Turn(current, Success(answer), []);
        Conversation(s, turns + [asked]) && sent == s.sent + Requests(turns + [asked]) &&
          total == TotalUsage(turns + [asked])
      requires answer.message.calls != [] && |turns| + 1 < rounds
      requires tools.ran == s.ran + RunnableOnly(s.tools, AllCalls(turns))
      modifies tools`sequence, tools`events, tools`ran
      ensures next.More? ==> At(s, tools, turns + [turn])
      ensures next.More? ==>
        next.messages == Upcoming(s, turns + [turn]) && next.usage == TotalUsage(turns + [turn]) && next.messages != []
      ensures next.Finished? ==> After(s, tools, turns + [turn], rounds, next.result)
      ensures tools.audited && Paired(old(tools.events)) ==>
        (Paired(tools.events) <==> next != Finished(Failure(CancelledError)))
    {
      hide ToolSet.Valid, Concluded, Runnable, RunnableOnly, AllCalls, TotalUsage, Answered, StopsAt, BatchTrail,
        Paired, GapFree;
      hide Follows, WentOn, Conversation, Ongoing, Upcoming, Ends, Reached, UsableSchema, CheckRequest;
      var calls := answer.message.calls;
      ghost var asked := Turn(current, Success(answer), []);
      ghost var before, base := tools.ran, tools.events;
      var messages := current.messages + [answer.message];
      var end;
      ghost var answered;
      end, answered := tools.InvokeAll(calls);
      turn := asked.(results := answered);
      StopIsInside(s, before, calls, end, answered);
      BatchKeepsOrder(s.tools, calls, answered, end, base);
      ResultsSettleNothingElse(s, turns, asked, answered);
      match end
      case Done(results) =>
        if !Renderable(results, render) {
          next := Finished(Failure(RenderFailed));
          EndsInTheTools(s, turns, turn, rounds, next.result);
          ReachedInTheTools(s, turns, turn, next.result);
          return;
        }
        RoundWentOn(s, turns, turn);
        RunnableOnlyJoins(s.tools, AllCalls(turns), calls);
        assert calls[..|calls|] == calls;
        next := More(messages + ToolMessages(results, render), total);
        UpcomingAfter(s, turns, turn);
      case RefusedCall(tool) =>
        next := Finished(Failure(NotAllowed(tool)));
        EndsInTheTools(s, turns, turn, rounds, next.result);
        ReachedInTheTools(s, turns, turn, next.result);
      case InterruptedCall =>
        next := Finished(Failure(CancelledError));
        EndsInTheTools(s, turns, turn, rounds, next.result);
        ReachedInTheTools(s, turns, turn, next.result);
    }

    // A run of at most `rounds` rounds. The ghost turns are its whole history.
    method ChatWithTools(request: Request, tools: ToolSet, rounds: int)
        returns (result: Result<Response>, ghost turns: seq<Turn>)
      requires UsableRequest(request) && tools.Valid()
      modifies this, tools`sequence, tools`events, tools`ran
      ensures Within(old(SettingOf(request, tools)), tools) && tools.Valid()
      ensures Barred(request, old(SettingOf(request, tools)).specs, rounds).None? ==>
        After(old(SettingOf(request, tools)), tools, turns, rounds, result)
      ensures var barred := Barred(request, old(SettingOf(request, tools)).specs, rounds);
        barred.Some? ==> result == Failure(barred.value) && sent == old(sent) && tools.ran == old(tools.ran)
      ensures tools.audited && Paired(old(tools.events)) ==>
        (Paired(tools.events) <==> result != Failure(CancelledError))
    {
      ghost var s := SettingOf(request, tools);
      assert forall k :: 0 <= k < |tools.names| ==> tools.names[k] in tools.tools;
      hide ToolSet.Valid, Concluded, Runnable, RunnableOnly, AllCalls, TotalUsage, Answered, StopsAt, BatchTrail,
        Paired, GapFree;
      hide Follows, WentOn, Conversation, Ongoing, Upcoming, Ends, Reached, UsableSchema;
      turns := [];
      if rounds < 1 {
        return Failure(BadRequest), turns;
      }
      if capabilities.None? || !capabilities.value.tools {
        return Failure(Unsupported(if capabilities.None? then "capabilities" else "tools")), turns;
      }
      var messages, usage, round := request.messages, Usage(0, 0), 1;
      NoRounds(s);
      assert [] + tools.ran == tools.ran + [];
      while round <= rounds
        invariant 1 <= round == |turns| + 1 <= rounds
        invariant Within(s, tools) && At(s, tools, turns) && messages == Upcoming(s, turns) != [] &&
          usage == TotalUsage(turns)
        invariant round == 1 ==> sent == old(sent) && tools.ran == old(tools.ran)
        invariant round > 1 ==> Barred(request, s.specs, rounds).None?
        invariant tools.audited && Paired(old(tools.events)) ==> Paired(tools.events)
        decreases rounds - round
      {
        var current := request.(messages := messages, tools := Specs(tools.names, tools.tools));
        if CheckRequest(current, capabilities).Some? {
          var refused := Chat(current);
          return Failure(refused.error), turns;
        }
        ghost var turn;
        var next;
        next, turn := Round(s, turns, current, usage, tools, round, rounds);
        turns := turns + [turn];
        if next.Finished? {
          return next.result, turns;
        }
        messages, usage, round := next.messages, next.usage, round + 1;
      }
      assert false;
    }
  }
}
