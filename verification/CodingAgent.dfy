/** Collecting a turn, and the coding agent's turn loop with its cumulative token budget. */
module CodingAgent {
  import opened Wrappers
  import opened Stream

  // ----- collecting one turn -----

  datatype TurnResult = TurnResult(output: string, toolCalls: seq<ToolCall>, usage: Usage, finishReason: string)

  const NO_TURN := TurnResult("", [], Usage(0, 0, 0), "")

  /** What one event adds to a collected turn. */
  function Added(r: TurnResult, e: Event): TurnResult {
    match e.kind
    case TextDelta => r.(output := r.output + e.text)
    case ToolRequest => if e.toolCall.Some? then r.(toolCalls := r.toolCalls + [e.toolCall.value]) else r
    case UsageReport => if e.usage.Some? then r.(usage := e.usage.value) else r
    case Finish => if e.finish.Some? then r.(finishReason := e.finish.value) else r
    case _ => r
  }

  /** The collected view of the events before an error. */
  function Gather(events: seq<Event>): TurnResult {
    if events == [] then NO_TURN
    else Added(Gather(events[..|events| - 1]), events[|events| - 1])
  }

  lemma GatherNothing(events: seq<Event>)
    ensures Gather(events[..0]) == NO_TURN
  {
  }

  lemma GatherNext(events: seq<Event>, k: nat)
    requires k < |events|
    ensures Gather(events[..k + 1]) == Added(Gather(events[..k]), events[k])
  {
    assert events[..k + 1][..k] == events[..k];
  }

  /** What a stream that still yields these events collects to. */
  function Collected(events: seq<Event>): Result<TurnResult, StreamError> {
    if events != [] && events[|events| - 1].kind == Error && events[|events| - 1].error.Some? then
      Failure(events[|events| - 1].error.value)
    else Success(Gather(events))
  }

  /** What still comes from a stream ends in one Finish or one Error that carries its cause. */
  ghost predicate Ending(events: seq<Event>) {
    && events != [] && Terminal(events[|events| - 1])
    && (forall i :: 0 <= i < |events| - 1 ==> !Terminal(events[i]) && ShapeError(events[i]).None?)
    && (events[|events| - 1].kind == Finish ==> ShapeError(events[|events| - 1]).None?)
    && (events[|events| - 1].kind == Error ==> events[|events| - 1].error.Some?)
  }

  lemma TurnsEndProperly(request: Request, script: seq<Item>, usageSeen: bool)
    ensures Ending(Normalize(request, script, usageSeen))
  {
    hide ShapeError, UsageCount, Normalize;
    StreamGrammar(request, script, usageSeen);
    ErrorsCarryOne(request, script, usageSeen);
  }

  lemma {:induction false} ErrorsCarryOne(request: Request, script: seq<Item>, usageSeen: bool)
    ensures forall i :: 0 <= i < |Normalize(request, script, usageSeen)|
                        && Normalize(request, script, usageSeen)[i].kind == Error ==>
                          Normalize(request, script, usageSeen)[i].error.Some?
    decreases |script|
  {
    hide RequestError, Variants;
    if script != [] && script[0].Got? {
      var e := script[0].event;
      if EventError(request, e, usageSeen).None? && !Terminal(e) {
        ErrorsCarryOne(request, script[1..], usageSeen || e.kind == UsageReport);
      }
    }
  }

  /** Collects whatever a stream still yields, fresh, half read or closed. */
  method Collect(stream: NormalizedStream) returns (r: Result<TurnResult, StreamError>)
    requires stream.Valid()
    modifies stream
    ensures r == Collected(old(stream.Rest()))
    ensures stream.Valid() && stream.Rest() == []
  {
    hide ShapeError, Normalize, Gather;
    ghost var events := stream.Rest();
    GatherNothing(events);
    if !stream.terminal {
      TurnsEndProperly(stream.request, stream.script[stream.index..], stream.usageSeen);
    }
    var result := NO_TURN;
    ghost var k := 0;
    while true
      invariant stream.Valid() && k <= |events| && stream.Rest() == events[k..]
      invariant events == [] || Ending(events)
      invariant result == Gather(events[..k])
      invariant k == |events| ==> events == [] || events[|events| - 1].kind == Finish
      decreases |events| - k
    {
      var received := stream.Recv();
      if received.EndOfFile? {
        assert events[..k] == events;
        stream.Close();
        return Success(result);
      }
      var event := received.event;
      assert event == events[k];
      GatherNext(events, k);
      match event.kind {
        case TextDelta => result := result.(output := result.output + event.text);
        case ToolRequest =>
          HasCall(event);
          result := result.(toolCalls := result.toolCalls + [event.toolCall.value]);
        case UsageReport =>
          HasUsage(event);
          result := result.(usage := event.usage.value);
        case Finish =>
          HasFinish(event);
          result := result.(finishReason := event.finish.value);
        case Error =>
          stream.Close();
          return Failure(event.error.value);
        case Unsupported(_) =>
          NoUnsupported(event);
      }
      k := k + 1;
    }
  }

  lemma HasCall(e: Event)
    requires ShapeError(e).None? && e.kind == ToolRequest
    ensures e.toolCall.Some?
    ensures CallWellFormed(e.toolCall.value)
  {
  }

  lemma HasUsage(e: Event)
    requires ShapeError(e).None? && e.kind == UsageReport
    ensures e.usage.Some? && e.usage.value.input >= 0 && e.usage.value.output >= 0
    ensures e.usage.value.total >= e.usage.value.input + e.usage.value.output
  {
  }

  lemma HasFinish(e: Event)
    requires ShapeError(e).None? && e.kind == Finish
    ensures e.finish.Some?
  {
  }

  lemma NoUnsupported(e: Event)
    requires ShapeError(e).None?
    ensures !e.kind.Unsupported?
  {
  }

  // ----- requests -----

  predicate CallWellFormed(call: ToolCall) {
    call.id != "" && call.name != "" && call.arguments != "" && JsonValid(call.arguments)
  }

  const SYSTEM_CONTRACT: string

  predicate MessageRule(index: nat, message: Message) {
    match message.role
    case System =>
      index == 0 && message.content == SYSTEM_CONTRACT
      && message.toolCalls == [] && message.toolCallId == "" && message.toolName == ""
    case User => message.toolCalls == [] && message.toolCallId == "" && message.toolName == ""
    case Assistant =>
      message.toolCallId == "" && message.toolName == ""
      && forall i :: 0 <= i < |message.toolCalls| ==> CallWellFormed(message.toolCalls[i])
    case Tool => message.toolCallId != "" && message.toolName != "" && message.toolCalls == []
    case UnknownRole(_) => false
  }

  predicate MessageRules(messages: seq<Message>) {
    forall i :: 0 <= i < |messages| ==> MessageRule(i, messages[i])
  }

  const ContractValid: Contract -> bool

  predicate ToolRules(tools: seq<Contract>) {
    && tools != []
    && (forall i :: 0 <= i < |tools| ==> ContractValid(tools[i]))
    && (forall i, j :: 0 <= i < j < |tools| ==> tools[i].name != tools[j].name)
  }

  predicate RequestRules(request: Request) {
    request.taskSummary != "" && request.tokenLimit > 0 && ToolRules(request.tools) && MessageRules(request.messages)
  }

  method ValidatePhase5Request(request: Request) returns (ok: bool)
    ensures ok <==> RequestRules(request)
  {
    if request.taskSummary == "" || request.tokenLimit <= 0 || |request.tools| == 0 {
      return false;
    }
    var seen: set<string> := {};
    for index := 0 to |request.tools|
      invariant seen == set i | 0 <= i < index :: request.tools[i].name
      invariant forall i :: 0 <= i < index ==> ContractValid(request.tools[i])
      invariant forall i, j :: 0 <= i < j < index ==> request.tools[i].name != request.tools[j].name
    {
      var contract := request.tools[index];
      if !ContractValid(contract) {
        return false;
      }
      if contract.name in seen {
        return false;
      }
      seen := seen + {contract.name};
    }
    for index := 0 to |request.messages|
      invariant forall i :: 0 <= i < index ==> MessageRule(i, request.messages[i])
    {
      if !MessageRule(index, request.messages[index]) {
        return false;
      }
    }
    return true;
  }

  // ----- the turn loop -----

  /** Everything outside the agent: the model, the tool service and the caller's context. */
  datatype Surroundings = Surroundings(
    reason: (nat, Request) -> seq<Item>,
    invoke: (nat, nat, ToolCall) -> Option<string>,
    cancelled: nat -> bool,
    maxTurns: nat)

  /** A tool invocation, and the tokens spent when it was made. */
  datatype Invocation = Invocation(call: ToolCall, spent: int)

  datatype Progress = Progress(
    messages: seq<Message>, text: string, usage: Usage, turns: nat, toolCalls: nat,
    remaining: int, invoked: seq<Invocation>)

  datatype AgentError =
    | InvalidRequest | CallerCancelled | StreamFailed(error: StreamError) | BudgetExceeded
    | MissingCalls | ToolFailed | TurnBudgetExceeded

  datatype Ended = Answered(p: Progress) | Stopped(error: AgentError, invoked: seq<Invocation>)

  function Begin(request: Request): Progress {
    Progress(request.messages, "", Usage(0, 0, 0), 0, 0, request.tokenLimit, [])
  }

  function Spend(p: Progress, turn: nat, r: TurnResult): Progress {
    p.(turns := turn,
       text := p.text + r.output,
       usage := Usage(p.usage.input + r.usage.input, p.usage.output + r.usage.output, p.usage.total + r.usage.total),
       remaining := p.remaining - r.usage.total)
  }

  function Spoken(p: Progress, r: TurnResult): Progress {
    p.(messages := p.messages + [Message(Assistant, r.output, r.toolCalls, "", "")])
  }

  function Invoked(p: Progress, call: ToolCall): Progress {
    p.(invoked := p.invoked + [Invocation(call, p.usage.total)])
  }

  function Replied(p: Progress, call: ToolCall, payload: string): Progress {
    p.(messages := p.messages + [Message(Tool, payload, [], call.id, call.name)], toolCalls := p.toolCalls + 1)
  }

  /** The tool calls of a turn, in order, until one fails. */
  function InvokeAll(env: Surroundings, p: Progress, turn: nat, calls: seq<ToolCall>, from: nat): (Progress, bool)
    requires from <= |calls|
    decreases |calls| - from
  {
    if from == |calls| then (p, true)
    else
      var q := Invoked(p, calls[from]);
      match env.invoke(turn, from, calls[from])
      case None => (q, false)
      case Some(payload) => InvokeAll(env, Replied(q, calls[from], payload), turn, calls, from + 1)
  }

  /** The conversation from this turn on. */
  function Converse(env: Surroundings, request: Request, p: Progress, turn: nat): Ended
    decreases env.maxTurns + 1 - turn
  {
    if turn > env.maxTurns then Stopped(TurnBudgetExceeded, p.invoked)
    else if env.cancelled(turn) then Stopped(CallerCancelled, p.invoked)
    else
      var turnRequest := request.(messages := p.messages, tokenLimit := p.remaining);
      match Collected(Normalize(turnRequest, env.reason(turn, turnRequest), false))
      case Failure(error) => Stopped(StreamFailed(error), p.invoked)
      case Success(r) =>
        var spent := Spend(p, turn, r);
        if spent.remaining < 0 then Stopped(BudgetExceeded, p.invoked)
        else
          var spoken := Spoken(spent, r);
          if r.toolCalls == [] then
            if r.finishReason == "tool_calls" then Stopped(MissingCalls, p.invoked) else Answered(spoken)
          else
            var (q, ok) := InvokeAll(env, spoken, turn, r.toolCalls, 0);
            if !ok then Stopped(ToolFailed, q.invoked) else Converse(env, request, q, turn + 1)
  }

  /** The agent's loop is that conversation. */
  method Run(env: Surroundings, request: Request, boundTools: bool) returns (r: Ended)
    ensures !RequestRules(request) || !boundTools ==> r == Stopped(InvalidRequest, [])
    ensures RequestRules(request) && boundTools ==> r == Converse(env, request, Begin(request), 1)
  {
    hide Normalize, Collected;
    var valid := ValidatePhase5Request(request);
    if !valid || !boundTools {
      return Stopped(InvalidRequest, []);
    }
    var p := Begin(request);
    for turn := 1 to env.maxTurns + 1
      invariant Converse(env, request, Begin(request), 1) == Converse(env, request, p, turn)
    {
      if env.cancelled(turn) {
        return Stopped(CallerCancelled, p.invoked);
      }
      var turnRequest := request.(messages := p.messages, tokenLimit := p.remaining);
      var script := env.reason(turn, turnRequest);
      var stream := new NormalizedStream(turnRequest, script);
      var collected := Collect(stream);
      if collected.Failure? {
        return Stopped(StreamFailed(collected.error), p.invoked);
      }
      var result := collected.value;
      p := Spend(p, turn, result);
      if p.remaining < 0 {
        return Stopped(BudgetExceeded, p.invoked);
      }
      p := Spoken(p, result);
      if |result.toolCalls| == 0 {
        if result.finishReason == "tool_calls" {
          return Stopped(MissingCalls, p.invoked);
        }
        return Answered(p);
      }
      ghost var spoken := p;
      for index := 0 to |result.toolCalls|
        invariant InvokeAll(env, spoken, turn, result.toolCalls, 0) == InvokeAll(env, p, turn, result.toolCalls, index)
      {
        var call := result.toolCalls[index];
        p := Invoked(p, call);
        var response := env.invoke(turn, index, call);
        if response.None? {
          return Stopped(ToolFailed, p.invoked);
        }
        p := Replied(p, call, response.value);
      }
    }
    return Stopped(TurnBudgetExceeded, p.invoked);
  }

  // ----- the budget -----

  /** What holds at the start of every turn. */
  ghost predicate WithinBudget(limit: int, p: Progress) {
    && p.usage.total + p.remaining == limit && p.remaining >= 0
    && p.usage.input >= 0 && p.usage.output >= 0 && p.usage.total >= p.usage.input + p.usage.output
    && MessageRules(p.messages)
    && |p.invoked| == p.toolCalls
    && forall i :: 0 <= i < |p.invoked| ==> p.invoked[i].spent <= limit
  }

  ghost predicate GoodTurn(r: TurnResult) {
    && r.usage.input >= 0 && r.usage.output >= 0 && r.usage.total >= r.usage.input + r.usage.output
    && forall i :: 0 <= i < |r.toolCalls| ==> CallWellFormed(r.toolCalls[i])
  }

  lemma {:induction false} GatheredIsGood(events: seq<Event>)
    requires forall i :: 0 <= i < |events| ==> ShapeError(events[i]).None?
    ensures GoodTurn(Gather(events))
  {
    hide ShapeError, CallWellFormed;
    if events != [] {
      var n := |events| - 1;
      GatheredIsGood(events[..n]);
      if events[n].kind == ToolRequest {
        HasCall(events[n]);
      } else if events[n].kind == UsageReport {
        HasUsage(events[n]);
      }
    }
  }

  lemma CollectedIsGood(request: Request, script: seq<Item>)
    requires Collected(Normalize(request, script, false)).Success?
    ensures GoodTurn(Collected(Normalize(request, script, false)).value)
  {
    hide ShapeError, GoodTurn, Gather, Normalize;
    var events := Normalize(request, script, false);
    TurnsEndProperly(request, script, false);
    GatheredIsGood(events);
  }

  lemma {:induction false} InvocationsWithinBudget(env: Surroundings, limit: int, p: Progress, turn: nat, calls: seq<ToolCall>, from: nat)
    requires from <= |calls| && WithinBudget(limit, p)
    requires forall i :: 0 <= i < |calls| ==> CallWellFormed(calls[i])
    ensures
      var (q, ok) := InvokeAll(env, p, turn, calls, from);
      && (ok ==> WithinBudget(limit, q))
      && (forall i :: 0 <= i < |q.invoked| ==> q.invoked[i].spent <= limit)
      && p.messages <= q.messages && p.invoked <= q.invoked
    decreases |calls| - from
  {
    if from < |calls| {
      var q := Invoked(p, calls[from]);
      var answer := env.invoke(turn, from, calls[from]);
      if answer.Some? {
        InvocationsWithinBudget(env, limit, Replied(q, calls[from], answer.value), turn, calls, from + 1);
      }
    }
  }

  lemma SpokenWithinBudget(limit: int, p: Progress, turn: nat, r: TurnResult)
    requires WithinBudget(limit, p) && GoodTurn(r) && p.remaining - r.usage.total >= 0
    ensures WithinBudget(limit, Spoken(Spend(p, turn, r), r))
  {
  }

  /**
    From a state within budget, an answer has spent at most the limit, no tool was
    invoked past it, and the transcript still satisfies the message rules.
  */
  lemma {:induction false} ConversationWithinBudget(env: Surroundings, request: Request, limit: int, p: Progress, turn: nat)
    requires WithinBudget(limit, p)
    ensures
      match Converse(env, request, p, turn)
      case Answered(q) => WithinBudget(limit, q) && p.messages <= q.messages && q.turns <= env.maxTurns
      case Stopped(_, invoked) => forall i :: 0 <= i < |invoked| ==> invoked[i].spent <= limit
    decreases env.maxTurns + 1 - turn
  {
    hide Normalize, Collected, WithinBudget, GoodTurn, InvokeAll;
    BudgetFacts(limit, p);
    if turn <= env.maxTurns && !env.cancelled(turn) {
      var turnRequest := request.(messages := p.messages, tokenLimit := p.remaining);
      var script := env.reason(turn, turnRequest);
      var collected := Collected(Normalize(turnRequest, script, false));
      if collected.Success? {
        var r := collected.value;
        CollectedIsGood(turnRequest, script);
        if p.remaining - r.usage.total >= 0 {
          SpokenWithinBudget(limit, p, turn, r);
          var spoken := Spoken(Spend(p, turn, r), r);
          assert GoodCalls(r.toolCalls) by { CallsAreGood(r); }
          InvocationsWithinBudget(env, limit, spoken, turn, r.toolCalls, 0);
          if r.toolCalls != [] {
            var (q, ok) := InvokeAll(env, spoken, turn, r.toolCalls, 0);
            if ok {
              ConversationWithinBudget(env, request, limit, q, turn + 1);
              assert Converse(env, request, p, turn) == Converse(env, request, q, turn + 1);
            } else {
              assert Converse(env, request, p, turn) == Stopped(ToolFailed, q.invoked);
            }
          }
        }
      }
    }
  }

  ghost predicate GoodCalls(calls: seq<ToolCall>) {
    forall i :: 0 <= i < |calls| ==> CallWellFormed(calls[i])
  }

  lemma CallsAreGood(r: TurnResult)
    requires GoodTurn(r)
    ensures GoodCalls(r.toolCalls)
  {
  }

  lemma BudgetFacts(limit: int, p: Progress)
    requires WithinBudget(limit, p)
    ensures forall i :: 0 <= i < |p.invoked| ==> p.invoked[i].spent <= limit
  {
  }

  /**
    Across all turns a successful run spends at most the initial limit and no tool
    is invoked once it is exceeded, although a stream with nothing left has no limit.
  */
  lemma CumulativeBudget(env: Surroundings, request: Request)
    requires RequestRules(request)
    ensures
      match Converse(env, request, Begin(request), 1)
      case Answered(p) =>
        && 0 <= p.usage.total <= request.tokenLimit
        && MessageRules(p.messages) && request.messages <= p.messages
        && |p.invoked| == p.toolCalls
        && (forall i :: 0 <= i < |p.invoked| ==> p.invoked[i].spent <= request.tokenLimit)
      case Stopped(_, invoked) => forall i :: 0 <= i < |invoked| ==> invoked[i].spent <= request.tokenLimit
  {
    hide Converse, Normalize;
    ConversationWithinBudget(env, request, request.tokenLimit, Begin(request), 1);
  }

  /** A stream asked with nothing remaining bounds nothing: any well-shaped usage passes. */
  lemma ZeroMeansNoLimit(request: Request, usage: Usage)
    requires request.tokenLimit == 0 && usage.input >= 0 && usage.output >= 0 && usage.total >= usage.input + usage.output
    ensures
      var e := Event(UsageReport, "", None, Some(usage), None, None);
      EventError(request, e, false).None?
  {
  }
}
