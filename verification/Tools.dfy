// Tool calls under an allowlist: what may run, what each call is answered with, and the audit trail.
module Tools {
  import opened JsonSchema

  // --- Calls, results and events ---

  datatype ToolCall = ToolCall(name: string, arguments: seq<Field>)

  datatype ToolResult = ToolResult(tool: string, ok: bool, value: Json, errorType: Option<string>)

  // How a handler ends. Cancellation is not an error a handler may turn into a result.
  datatype Outcome = Returned(value: Json) | Raised(errorType: string) | Cancelled

  // What a handler does may depend on every call that reached a handler before.
  type Handlers = (seq<ToolCall>, ToolCall) -> Outcome

  datatype EventKind = Requested | Denied | Invalid | Succeeded | Failed

  datatype Event = Event(kind: EventKind, tool: string, sequence: nat, argumentKeys: set<string>)

  datatype Declaration = Declaration(name: string, parameters: Json)

  // The declared parameters of each allowed tool, by name.
  type Allowlist = map<string, Json>

  function Keys(call: ToolCall): set<string> {
    set k | 0 <= k < |call.arguments| :: call.arguments[k].name
  }

  ghost predicate UsableTools(tools: Allowlist) {
    forall name :: name in tools ==> UsableSchema(tools[name])
  }

  // A call whose handler may run: its tool is allowed and its arguments are what the tool declares.
  ghost predicate Runnable(tools: Allowlist, call: ToolCall) {
    call.name in tools && Satisfies(Obj(call.arguments), tools[call.name])
  }

  ghost predicate AllRunnable(tools: Allowlist, calls: seq<ToolCall>) {
    forall k :: 0 <= k < |calls| ==> Runnable(tools, calls[k])
  }

  // The names in the order the tools were added, each once.
  ghost predicate Ordered(names: seq<string>, tools: Allowlist) {
    && (forall i, j :: 0 <= i < j < |names| ==> names[i] != names[j])
    && (forall name :: name in tools <==> name in names)
  }

  // The declarations a provider is shown, in the order the tools were added.
  function Specs(names: seq<string>, tools: Allowlist): (specs: seq<Declaration>)
    requires forall k :: 0 <= k < |names| ==> names[k] in tools
    ensures |specs| == |names|
    ensures forall k :: 0 <= k < |names| ==> specs[k] == Declaration(names[k], tools[names[k]])
  {
    seq(|names|, k requires 0 <= k < |names| => Declaration(names[k], tools[names[k]]))
  }

  ghost function RunnableOnly(tools: Allowlist, calls: seq<ToolCall>): (r: seq<ToolCall>)
    ensures forall k :: 0 <= k < |r| ==> Runnable(tools, r[k]) && r[k] in calls
  {
    if calls == [] then [] else
      var n := |calls| - 1;
      RunnableOnly(tools, calls[..n]) + if Runnable(tools, calls[n]) then [calls[n]] else []
  }

  lemma RunnableExtends(tools: Allowlist, calls: seq<ToolCall>, call: ToolCall)
    requires AllRunnable(tools, calls) && Runnable(tools, call)
    ensures AllRunnable(tools, calls + [call])
  {
  }

  // What an allowed call is answered with when nothing cancels it.
  ghost function Answer(tools: Allowlist, handlers: Handlers, before: seq<ToolCall>, call: ToolCall): ToolResult {
    if !Runnable(tools, call) then ToolResult(call.name, false, Null, Some("AISchemaError"))
    else match handlers(before, call)
      case Returned(value) => ToolResult(call.name, true, value, None)
      case Raised(errorType) => ToolResult(call.name, false, Null, Some(errorType))
      case Cancelled => ToolResult(call.name, false, Null, None)
  }

  // What a result has to say of its call: what the handler returned, what it raised, or that the tool's
  // declared parameters do not describe the arguments.
  ghost predicate Tells(tools: Allowlist, handlers: Handlers, before: seq<ToolCall>, call: ToolCall,
      result: ToolResult) {
    var fits := call.name in tools && Satisfies(Obj(call.arguments), tools[call.name]);
    && result.tool == call.name
    && (result.ok <==> fits && handlers(before, call).Returned?)
    && (result.ok ==> result.value == handlers(before, call).value && result.errorType.None?)
    && (!fits ==> result.errorType == Some("AISchemaError"))
    && (fits && handlers(before, call).Raised? ==> result.errorType == Some(handlers(before, call).errorType))
  }

  // Every answered call's result tells what became of it, on the history its handler saw.
  lemma ResultsTell(tools: Allowlist, handlers: Handlers, before: seq<ToolCall>, calls: seq<ToolCall>,
      results: seq<ToolResult>, k: nat)
    requires Answered(tools, handlers, before, calls, results) && k < |results|
    ensures Tells(tools, handlers, before + RunnableOnly(tools, calls[..k]), calls[k], results[k])
  {
    assert AnsweredAt(tools, handlers, before, calls, results, k);
    hide Satisfies, RunnableOnly;
  }

  lemma CallsNotRun(tools: Allowlist, handlers: Handlers, before: seq<ToolCall>, call: ToolCall)
    ensures call.name !in tools ==> !Runnable(tools, call)
    ensures !Runnable(tools, call) ==>
      var result := ToolResult(call.name, false, Null, Some("AISchemaError"));
      Answer(tools, handlers, before, call) == result && EndKind(tools, call, result) == Invalid
  {
  }

  lemma NotRunTells(tools: Allowlist, handlers: Handlers, before: seq<ToolCall>, call: ToolCall)
    ensures !Runnable(tools, call) ==>
      Tells(tools, handlers, before, call, ToolResult(call.name, false, Null, Some("AISchemaError")))
  {
  }

  // Each result answers the call in its place, whose handler saw the calls that ran before it.
  ghost predicate Answered(tools: Allowlist, handlers: Handlers, before: seq<ToolCall>, calls: seq<ToolCall>,
      results: seq<ToolResult>) {
    && |results| <= |calls|
    && forall k :: 0 <= k < |results| ==> AnsweredAt(tools, handlers, before, calls, results, k)
  }

  ghost predicate AnsweredAt(tools: Allowlist, handlers: Handlers, before: seq<ToolCall>, calls: seq<ToolCall>,
      results: seq<ToolResult>, k: nat)
    requires k < |results| <= |calls|
  {
    var history := before + RunnableOnly(tools, calls[..k]);
    && calls[k].name in tools
    && (Runnable(tools, calls[k]) ==> !handlers(history, calls[k]).Cancelled?)
    && results[k] == Answer(tools, handlers, history, calls[k])
  }

  ghost function EndKind(tools: Allowlist, call: ToolCall, result: ToolResult): EventKind {
    if !Runnable(tools, call) then Invalid else if result.ok then Succeeded else Failed
  }

  function Pair(call: ToolCall, kind: EventKind, from: nat): seq<Event> {
    [Event(Requested, call.name, from + 1, Keys(call)), Event(kind, call.name, from + 2, Keys(call))]
  }

  // The events answered calls leave behind, numbered after the `from` events before them.
  ghost function Trail(tools: Allowlist, calls: seq<ToolCall>, results: seq<ToolResult>, from: nat): (r: seq<Event>)
    requires |results| <= |calls|
    ensures |r| == 2 * |results|
    decreases |results|
  {
    if results == [] then [] else
      var n := |results| - 1;
      Trail(tools, calls, results[..n], from) + Pair(calls[n], EndKind(tools, calls[n], results[n]), from + 2 * n)
  }

  // Numbers run from one without a gap.
  predicate GapFree(events: seq<Event>) {
    forall k :: 0 <= k < |events| ==> events[k].sequence == k + 1
  }

  // Every request is followed by its own outcome.
  predicate Paired(events: seq<Event>) {
    && |events| % 2 == 0
    && forall k :: 0 <= k < |events| / 2 ==> PairAt(events, k)
  }

  predicate PairAt(events: seq<Event>, k: nat)
    requires 2 * k + 1 < |events|
  {
    var first, second := events[2 * k], events[2 * k + 1];
    first.kind == Requested && second.kind != Requested && first.tool == second.tool &&
      first.argumentKeys == second.argumentKeys
  }

  lemma {:induction false} TrailKeepsOrder(tools: Allowlist, calls: seq<ToolCall>, results: seq<ToolResult>,
      events: seq<Event>)
    requires |results| <= |calls|
    ensures GapFree(events) ==> GapFree(events + Trail(tools, calls, results, |events|))
    ensures Paired(events) ==> Paired(events + Trail(tools, calls, results, |events|))
    decreases |results|
  {
    if results == [] {
      assert events + [] == events;
    } else {
      var n := |results| - 1;
      var earlier := events + Trail(tools, calls, results[..n], |events|);
      var pair := Pair(calls[n], EndKind(tools, calls[n], results[n]), |events| + 2 * n);
      TrailKeepsOrder(tools, calls, results[..n], events);
      assert events + Trail(tools, calls, results, |events|) == earlier + pair;
      PairKeepsOrder(earlier, calls[n], EndKind(tools, calls[n], results[n]));
    }
  }

  lemma PairKeepsOrder(events: seq<Event>, call: ToolCall, kind: EventKind)
    requires kind != Requested
    ensures GapFree(events) ==> GapFree(events + Pair(call, kind, |events|))
    ensures Paired(events) ==> Paired(events + Pair(call, kind, |events|))
  {
    var longer := events + Pair(call, kind, |events|);
    if Paired(events) {
      forall k | 0 <= k < |longer| / 2 ensures PairAt(longer, k) {
        if k < |events| / 2 {
          assert PairAt(events, k);
        }
      }
    }
  }

  // The two events of an answered call carry its tool, the names of its arguments and the next two numbers,
  // and the second one's kind tells what became of the call.
  ghost predicate PairTells(tools: Allowlist, handlers: Handlers, before: seq<ToolCall>, call: ToolCall, first: Event,
      second: Event, from: nat) {
    var fits := call.name in tools && Satisfies(Obj(call.arguments), tools[call.name]);
    && first.tool == second.tool == call.name && first.sequence == from + 1 && second.sequence == from + 2
    && first.argumentKeys == second.argumentKeys
    && (forall name :: name in first.argumentKeys <==> Has(Obj(call.arguments), name))
    && first.kind == Requested
    && (second.kind == Invalid <==> !fits)
    && (second.kind == Succeeded <==> fits && handlers(before, call).Returned?)
    && (second.kind == Failed <==> fits && !handlers(before, call).Returned?)
  }

  lemma {:induction false} TrailTells(tools: Allowlist, handlers: Handlers, before: seq<ToolCall>,
      calls: seq<ToolCall>, results: seq<ToolResult>, from: nat, k: nat)
    requires Answered(tools, handlers, before, calls, results) && k < |results|
    ensures var trail := Trail(tools, calls, results, from);
      PairTells(tools, handlers, before + RunnableOnly(tools, calls[..k]), calls[k], trail[2 * k], trail[2 * k + 1],
        from + 2 * k)
    decreases |results|
  {
    hide RunnableOnly, Satisfies;
    var n := |results| - 1;
    assert AnsweredAt(tools, handlers, before, calls, results, k);
    if k < n {
      assert Answered(tools, handlers, before, calls, results[..n]) by {
        forall j | 0 <= j < n ensures AnsweredAt(tools, handlers, before, calls, results[..n], j) {
          assert AnsweredAt(tools, handlers, before, calls, results, j);
        }
      }
      hide AnsweredAt, PairTells;
      TrailTells(tools, handlers, before, calls, results[..n], from, k);
    } else {
      assert |Trail(tools, calls, results[..n], from)| == 2 * n;
    }
  }

  lemma TrailExtends(tools: Allowlist, calls: seq<ToolCall>, results: seq<ToolResult>, result: ToolResult, from: nat)
    requires |results| < |calls|
    ensures Trail(tools, calls, results + [result], from)
         == Trail(tools, calls, results, from)
            + Pair(calls[|results|], EndKind(tools, calls[|results|], result), from + 2 * |results|)
  {
    assert (results + [result])[..|results|] == results;
  }

  lemma RunnableOnlyExtends(tools: Allowlist, calls: seq<ToolCall>, k: nat)
    requires k < |calls|
    ensures RunnableOnly(tools, calls[..k + 1])
         == RunnableOnly(tools, calls[..k]) + if Runnable(tools, calls[k]) then [calls[k]] else []
  {
    assert calls[..k + 1][..k] == calls[..k];
  }

  lemma AnsweredExtends(tools: Allowlist, handlers: Handlers, before: seq<ToolCall>, calls: seq<ToolCall>,
      results: seq<ToolResult>, result: ToolResult)
    requires Answered(tools, handlers, before, calls, results) && |results| < |calls|
    requires AnsweredAt(tools, handlers, before, calls, results + [result], |results|)
    ensures Answered(tools, handlers, before, calls, results + [result])
  {
    hide Runnable, Answer, RunnableOnly;
    forall k | 0 <= k < |results| + 1 ensures AnsweredAt(tools, handlers, before, calls, results + [result], k) {
      if k < |results| {
        assert AnsweredAt(tools, handlers, before, calls, results, k);
      }
    }
  }

  // How a batch stops short of its end: at a call outside the allowlist, or at one whose handler is cancelled.
  ghost predicate StopsAt(tools: Allowlist, handlers: Handlers, before: seq<ToolCall>, calls: seq<ToolCall>,
      end: BatchEnd, k: nat) {
    match end
    case Done(results) => k == |calls| == |results|
    case RefusedCall(tool) => k < |calls| && tool == calls[k].name && tool !in tools
    case InterruptedCall =>
      k < |calls| && Runnable(tools, calls[k]) &&
        handlers(before + RunnableOnly(tools, calls[..k]), calls[k]).Cancelled?
  }

  // The events of a whole batch, of which the first calls were answered.
  ghost function BatchTrail(tools: Allowlist, calls: seq<ToolCall>, answered: seq<ToolResult>, end: BatchEnd,
      from: nat): seq<Event>
    requires |answered| <= |calls| && (!end.Done? ==> |answered| < |calls|)
  {
    Trail(tools, calls, answered, from)
    + if end.Done? then [] else LooseEnd(calls[|answered|], end.RefusedCall?, from + 2 * |answered|)
  }

  // Nothing but a cancellation leaves a request without its outcome, and none leaves a gap.
  lemma BatchKeepsOrder(tools: Allowlist, calls: seq<ToolCall>, answered: seq<ToolResult>, end: BatchEnd,
      events: seq<Event>)
    requires |answered| <= |calls| && (!end.Done? ==> |answered| < |calls|)
    ensures GapFree(events) ==> GapFree(events + BatchTrail(tools, calls, answered, end, |events|))
    ensures Paired(events) ==>
      (Paired(events + BatchTrail(tools, calls, answered, end, |events|)) <==> !end.InterruptedCall?)
  {
    TrailKeepsOrder(tools, calls, answered, events);
    var answeredEvents := events + Trail(tools, calls, answered, |events|);
    var all := events + BatchTrail(tools, calls, answered, end, |events|);
    if end.Done? {
      assert all == answeredEvents;
    } else {
      var call := calls[|answered|];
      assert all == answeredEvents + LooseEnd(call, end.RefusedCall?, |answeredEvents|);
      PairKeepsOrder(answeredEvents, call, Denied);
    }
  }

  datatype InvokeEnd = Answering(result: ToolResult) | Refused(tool: string) | Interrupted

  datatype BatchEnd = Done(results: seq<ToolResult>) | RefusedCall(tool: string) | InterruptedCall

  // What a call not answered leaves: a denial is paired, an interrupted call never gets its outcome.
  function LooseEnd(call: ToolCall, denied: bool, from: nat): seq<Event> {
    if denied then Pair(call, Denied, from) else [Event(Requested, call.name, from + 1, Keys(call))]
  }

  // The tools one caller allows, with the audit trail of their use.
  class ToolSet {
    const audited: bool
    const handlers: Handlers
    var names: seq<string>
    var tools: Allowlist
    var sequence: nat
    var events: seq<Event>
    var ran: seq<ToolCall>

    ghost predicate Valid()
      reads this
    {
      && Ordered(names, tools)
      && UsableTools(tools)
      && AllRunnable(tools, ran)
      && (audited ==> GapFree(events))
      && (!audited ==> events == [])
      && sequence == |events|
    }

    constructor (handlers: Handlers, audited: bool)
      ensures Valid() && fresh(this)
      ensures this.handlers == handlers && this.audited == audited
      ensures names == [] && tools == map[] && events == [] && ran == []
    {
      this.handlers, this.audited := handlers, audited;
      names, tools, sequence, events, ran := [], map[], 0, [], [];
    }

    // Adds a tool under a new name; a taken name is refused and nothing changes.
    method Add(name: string, parameters: Json) returns (added: bool)
      requires Valid() && UsableSchema(parameters)
      modifies this
      ensures Valid()
      ensures added == (name !in old(tools))
      ensures added ==> names == old(names) + [name] && tools == old(tools)[name := parameters]
      ensures !added ==> names == old(names) && tools == old(tools)
      ensures events == old(events) && ran == old(ran)
    {
      added := name !in tools;
      if added {
        names, tools := names + [name], tools[name := parameters];
        forall k | 0 <= k < |ran| ensures Runnable(tools, ran[k]) {
          assert Runnable(old(tools), ran[k]);
        }
        hide Satisfies, UsableSchema;
      }
    }

    method Emit(kind: EventKind, call: ToolCall)
      requires Valid()
      modifies this`sequence, this`events
      ensures Valid()
      ensures events == if audited then old(events) + [Event(kind, call.name, |old(events)| + 1, Keys(call))] else []
    {
      if audited {
        sequence := sequence + 1;
        events := events + [Event(kind, call.name, sequence, Keys(call))];
      }
    }

    method Accepts(call: ToolCall) returns (accepted: bool)
      requires Valid() && call.name in tools
      ensures accepted <==> Runnable(tools, call)
    {
      var payload := Obj(call.arguments);
      assert UsableSchema(tools[call.name]);
      hide ValidatePayload, UsableSchema, Satisfies, GapFree;
      PayloadIsDecided(payload, tools[call.name]);
      var checked := ValidatePayload(payload, tools[call.name]);
      accepted := checked.Fits?;
    }

    // Runs the handler of an accepted call. A handler that raises is answered, a cancelled one is not.
    method Run(call: ToolCall) returns (end: InvokeEnd)
      requires Valid() && Runnable(tools, call)
      modifies this`sequence, this`events, this`ran
      ensures Valid()
      ensures ran == old(ran) + [call]
      ensures !end.Refused?
      ensures end.Interrupted? <==> handlers(old(ran), call).Cancelled?
      ensures end.Answering? ==>
        end.result == Answer(tools, handlers, old(ran), call) && Tells(tools, handlers, old(ran), call, end.result)
      ensures end.Interrupted? || !audited ==> events == old(events)
      ensures audited && end.Answering? ==>
        events == old(events) + [Event(EndKind(tools, call, end.result), call.name, |old(events)| + 1, Keys(call))]
    {
      hide Satisfies, UsableTools, GapFree, Ordered, AllRunnable, Keys, Paired, RunnableOnly, UsableSchema;
      var outcome := handlers(ran, call);
      RunnableExtends(tools, ran, call);
      ran := ran + [call];
      match outcome
      case Cancelled => end := Interrupted;
      case Raised(errorType) =>
        Emit(Failed, call);
        end := Answering(ToolResult(call.name, false, Null, Some(errorType)));
      case Returned(value) =>
        Emit(Succeeded, call);
        end := Answering(ToolResult(call.name, true, value, None));
    }

    method Invoke(call: ToolCall) returns (end: InvokeEnd)
      requires Valid()
      modifies this`sequence, this`events, this`ran
      ensures Valid()
      ensures ran == old(ran) + if Runnable(tools, call) then [call] else []
      ensures end.Refused? <==> call.name !in tools
      ensures end.Refused? ==> end.tool == call.name && !Runnable(tools, call)
      ensures end.Interrupted? <==> Runnable(tools, call) && handlers(old(ran), call).Cancelled?
      ensures end.Answering? ==>
        end.result == Answer(tools, handlers, old(ran), call) && Tells(tools, handlers, old(ran), call, end.result)
      ensures audited && end.Answering? ==>
        events == old(events) + Pair(call, EndKind(tools, call, end.result), |old(events)|)
      ensures audited && !end.Answering? ==> events == old(events) + LooseEnd(call, end.Refused?, |old(events)|)
    {
      hide Answer, EndKind, Runnable, Satisfies, UsableTools, GapFree, Ordered, AllRunnable, Keys, Paired,
        RunnableOnly, UsableSchema;
      CallsNotRun(tools, handlers, ran, call);
      NotRunTells(tools, handlers, ran, call);
      hide Tells;
      Emit(Requested, call);
      if call.name !in tools {
        Emit(Denied, call);
        return Refused(call.name);
      }
      var accepted := Accepts(call);
      if !accepted {
        Emit(Invalid, call);
        return Answering(ToolResult(call.name, false, Null, Some("AISchemaError")));
      }
      end := Run(call);
    }

    method InvokeAll(calls: seq<ToolCall>) returns (end: BatchEnd, ghost answered: seq<ToolResult>)
      requires Valid()
      modifies this`sequence, this`events, this`ran
      ensures Valid()
      ensures Answered(tools, handlers, old(ran), calls, answered)
      ensures StopsAt(tools, handlers, old(ran), calls, end, |answered|)
      ensures end.Done? ==> end.results == answered
      ensures ran == old(ran) + RunnableOnly(tools, calls[..|answered| + if end.InterruptedCall? then 1 else 0])
      ensures audited ==> events == old(events) + BatchTrail(tools, calls, answered, end, |old(events)|)
    {
      hide Valid, Runnable, Answer, Tells, EndKind, Keys, Trail, RunnableOnly, Answered, Pair, LooseEnd;
      var results: seq<ToolResult> := [];
      ghost var before, base := ran, events;
      answered := [];
      NothingAnswered(tools, handlers, before, calls, |base|);
      for k := 0 to |calls|
        invariant Valid() && |results| == k && answered == results
        invariant Answered(tools, handlers, before, calls, results)
        invariant ran == before + RunnableOnly(tools, calls[..k])
        invariant audited ==> events == base + Trail(tools, calls, results, |base|)
      {
        RunnableOnlyExtends(tools, calls, k);
        var invoked := Invoke(calls[k]);
        if invoked.Refused? {
          return RefusedCall(invoked.tool), answered;
        }
        if invoked.Interrupted? {
          return InterruptedCall, answered;
        }
        AnsweredExtends(tools, handlers, before, calls, results, invoked.result);
        TrailExtends(tools, calls, results, invoked.result, |base|);
        results := results + [invoked.result];
        answered := results;
      }
      assert calls[..|calls|] == calls;
      end := Done(results);
    }
  }

  lemma NothingAnswered(tools: Allowlist, handlers: Handlers, before: seq<ToolCall>, calls: seq<ToolCall>, from: nat)
    ensures Answered(tools, handlers, before, calls, [])
    ensures RunnableOnly(tools, calls[..0]) == [] && Trail(tools, calls, [], from) == []
  {
  }
}
