/**
  The normalized reasoner stream (internal/reasoner/stream.go), the collected
  turn (internal/reasoner/reasoner.go) and recorded turns (internal/reasoner/replay.go).
*/
module Stream {
  import opened Wrappers

  datatype EventKind = TextDelta | ToolRequest | UsageReport | Finish | Error | Unsupported(code: nat)

  datatype ToolCall = ToolCall(id: string, name: string, arguments: string)

  datatype Usage = Usage(input: int, output: int, total: int)

  datatype ErrorClass =
    | InvalidEvent | InvalidTool | InvalidToolArguments | TokenBudgetExceeded | StreamingInterrupted | Canceled
    | Internal | NoClass | OtherClass(code: nat)

  datatype StreamError = StreamError(class_: ErrorClass, message: string, retryable: bool)

  /** At most one variant is meant to be set; nothing but validation says so. */
  datatype Event = Event(
    kind: EventKind, text: string, toolCall: Option<ToolCall>, usage: Option<Usage>,
    finish: Option<string>, error: Option<StreamError>)

  datatype Contract = Contract(name: string, schema: string)

  datatype Role = System | User | Assistant | Tool | UnknownRole(code: nat)

  datatype Message = Message(role: Role, content: string, toolCalls: seq<ToolCall>, toolCallId: string, toolName: string)

  datatype Request = Request(messages: seq<Message>, tools: seq<Contract>, taskSummary: string, tokenLimit: int)

  const PHASE1_PATCH := "phase1.patch"

  /** JSON well-formedness and schema validation. */
  const JsonValid: string -> bool
  const AcceptsInput: (Contract, string) -> bool

  /** What one Recv of the underlying source yields; after the script it yields end of file. */
  datatype Item = Got(event: Event) | Failed(error: StreamError) | ContextCanceled | Interrupted

  // ----- validation -----

  function Set(b: bool): nat {
    if b then 1 else 0
  }

  function Variants(e: Event): nat {
    Set(e.text != "") + Set(e.toolCall.Some?) + Set(e.usage.Some?) + Set(e.finish.Some?) + Set(e.error.Some?)
  }

  function Refuse(class_: ErrorClass): Option<StreamError> {
    Some(StreamError(class_, "refused", false))
  }

  /** validateEventShape. */
  function ShapeError(e: Event): Option<StreamError> {
    if Variants(e) != 1 then Refuse(InvalidEvent)
    else
      match e.kind
      case TextDelta => if e.text == "" then Refuse(InvalidEvent) else None
      case ToolRequest =>
        if e.toolCall.None? || e.toolCall.value.id == "" || e.toolCall.value.name == "" || e.toolCall.value.arguments == "" then
          Refuse(InvalidEvent)
        else if !JsonValid(e.toolCall.value.arguments) then Refuse(InvalidToolArguments)
        else None
      case UsageReport =>
        if e.usage.None? || e.usage.value.input < 0 || e.usage.value.output < 0 || e.usage.value.total < 0 then
          Refuse(InvalidEvent)
        else if e.usage.value.total < e.usage.value.input + e.usage.value.output then Refuse(InvalidEvent)
        else None
      case Finish => if e.finish.None? || e.finish.value == "" then Refuse(InvalidEvent) else None
      case Error =>
        if e.error.None? || e.error.value.class_ == NoClass || e.error.value.message == "" then Refuse(InvalidEvent) else None
      case Unsupported(_) => Refuse(InvalidEvent)
  }

  function FindContract(tools: seq<Contract>, name: string): Option<Contract> {
    if tools == [] then None
    else if tools[0].name == name then Some(tools[0])
    else FindContract(tools[1..], name)
  }

  /** What the request itself demands of a well-shaped event. */
  function RequestError(request: Request, e: Event, usageSeen: bool): Option<StreamError>
    requires ShapeError(e).None?
  {
    match e.kind
    case ToolRequest =>
      var contract := FindContract(request.tools, e.toolCall.value.name);
      if contract.None? then
        if request.tools == [] && e.toolCall.value.name == PHASE1_PATCH then None else Refuse(InvalidTool)
      else if !AcceptsInput(contract.value, e.toolCall.value.arguments) then Refuse(InvalidToolArguments)
      else None
    case UsageReport =>
      if usageSeen then Refuse(InvalidEvent)
      else if request.tokenLimit > 0 && e.usage.value.total > request.tokenLimit then Refuse(TokenBudgetExceeded)
      else None
    case Finish => if request.tools != [] && !usageSeen then Refuse(InvalidEvent) else None
    case _ => None
  }

  /** validateEvent. */
  function EventError(request: Request, e: Event, usageSeen: bool): Option<StreamError> {
    if ShapeError(e).Some? then ShapeError(e) else RequestError(request, e, usageSeen)
  }

  function ErrorOf(error: StreamError): Event {
    Event(Error, "", None, None, None, Some(error))
  }

  const INTERRUPTED := ErrorOf(StreamError(StreamingInterrupted, "model stream ended before Finish", true))

  predicate Terminal(e: Event) {
    e.kind == Finish || e.kind == Error
  }

  // ----- what a stream yields -----

  /** The events a stream yields before end of file, from a state in which no terminal event was yielded. */
  function Normalize(request: Request, script: seq<Item>, usageSeen: bool): seq<Event> {
    if script == [] then [INTERRUPTED]
    else
      match script[0]
      case Failed(error) => [ErrorOf(error)]
      case ContextCanceled => [ErrorOf(StreamError(Canceled, "reasoner request was canceled", false))]
      case Interrupted => [ErrorOf(StreamError(StreamingInterrupted, "model stream was interrupted", true))]
      case Got(e) =>
        var refusal := EventError(request, e, usageSeen);
        if refusal.Some? then [ErrorOf(refusal.value)]
        else if Terminal(e) then [e]
        else [e] + Normalize(request, script[1..], usageSeen || e.kind == UsageReport)
  }

  datatype Received = Next(event: Event) | EndOfFile

  class NormalizedStream {
    const request: Request
    const script: seq<Item>
    var index: nat
    var terminal: bool
    var usageSeen: bool

    ghost predicate Valid()
      reads this
    {
      index <= |script|
    }

    /** Everything still to come. */
    ghost function Rest(): seq<Event>
      reads this
      requires Valid()
    {
      if terminal then [] else Normalize(request, script[index..], usageSeen)
    }

    constructor (request: Request, script: seq<Item>)
      ensures Valid() && this.request == request && Rest() == Normalize(request, script, false)
    {
      this.request, this.script := request, script;
      index, terminal, usageSeen := 0, false, false;
    }

    method Recv() returns (r: Received)
      requires Valid()
      modifies this
      ensures Valid()
      ensures old(Rest()) == [] ==> r == EndOfFile && Rest() == []
      ensures old(Rest()) != [] ==> r == Next(old(Rest())[0]) && Rest() == old(Rest())[1..]
    {
      if terminal {
        return EndOfFile;
      }
      if index == |script| {
        terminal := true;
        return Next(INTERRUPTED);
      }
      var item := script[index];
      assert script[index..][0] == item && script[index..][1..] == script[index + 1..];
      index := index + 1;
      match item {
        case Failed(error) =>
          terminal := true;
          return Next(ErrorOf(error));
        case ContextCanceled =>
          terminal := true;
          return Next(ErrorOf(StreamError(Canceled, "reasoner request was canceled", false)));
        case Interrupted =>
          terminal := true;
          return Next(ErrorOf(StreamError(StreamingInterrupted, "model stream was interrupted", true)));
        case Got(event) =>
          var refusal := EventError(request, event, usageSeen);
          if refusal.Some? {
            terminal := true;
            return Next(ErrorOf(refusal.value));
          }
          if event.kind == UsageReport {
            usageSeen := true;
          }
          if Terminal(event) {
            terminal := true;
          }
          return Next(event);
      }
    }

    method Close()
      requires Valid()
      modifies this
      ensures Valid() && Rest() == []
    {
      terminal := true;
    }
  }

  // ----- grammar -----

  function UsageCount(events: seq<Event>): nat {
    if events == [] then 0 else Set(events[0].kind == UsageReport) + UsageCount(events[1..])
  }

  /** Non-terminal events, then one Finish or Error. */
  ghost predicate Grammar(request: Request, events: seq<Event>, usageSeen: bool) {
    && events != []
    && (forall i :: 0 <= i < |events| - 1 ==> !Terminal(events[i]) && ShapeError(events[i]).None?)
    && Terminal(events[|events| - 1])
    && UsageCount(events) + Set(usageSeen) <= 1
    && (events[|events| - 1].kind == Finish ==>
          ShapeError(events[|events| - 1]).None?
          && (request.tools != [] ==> UsageCount(events) + Set(usageSeen) == 1))
    && (request.tokenLimit > 0 ==> forall i :: 0 <= i < |events| && events[i].kind == UsageReport ==>
          events[i].usage.Some? && events[i].usage.value.total <= request.tokenLimit)
  }

  /**
    For any source, the stream yields non-terminal well-shaped events with at most
    one Usage, then one Finish or Error; with tools, Finish follows exactly one Usage.
  */
  lemma {:induction false} StreamGrammar(request: Request, script: seq<Item>, usageSeen: bool)
    ensures Grammar(request, Normalize(request, script, usageSeen), usageSeen)
    decreases |script|
  {
    hide ShapeError, EventError;
    if script != [] && script[0].Got? && EventError(request, script[0].event, usageSeen).None? {
      var e := script[0].event;
      AcceptedEvent(request, e, usageSeen);
      if Terminal(e) {
        LastEvent(request, e, usageSeen);
      } else {
        var later := usageSeen || e.kind == UsageReport;
        StreamGrammar(request, script[1..], later);
        EarlierEvent(request, e, Normalize(request, script[1..], later), usageSeen);
      }
    } else {
      var out := Normalize(request, script, usageSeen);
      LastEvent(request, out[0], usageSeen);
    }
  }

  lemma AcceptedEvent(request: Request, e: Event, usageSeen: bool)
    requires EventError(request, e, usageSeen).None?
    ensures ShapeError(e).None?
    ensures e.kind == UsageReport ==> !usageSeen && e.usage.Some? && (request.tokenLimit > 0 ==> e.usage.value.total <= request.tokenLimit)
    ensures e.kind == Finish && request.tools != [] ==> usageSeen
  {
  }

  lemma LastEvent(request: Request, e: Event, usageSeen: bool)
    requires e.kind == Error || (e.kind == Finish && ShapeError(e).None? && (request.tools != [] ==> usageSeen))
    ensures Grammar(request, [e], usageSeen)
  {
    hide ShapeError;
    assert UsageCount([e]) == 0;
  }

  lemma EarlierEvent(request: Request, e: Event, rest: seq<Event>, usageSeen: bool)
    requires !Terminal(e) && ShapeError(e).None?
    requires e.kind == UsageReport ==> !usageSeen && e.usage.Some? && (request.tokenLimit > 0 ==> e.usage.value.total <= request.tokenLimit)
    requires Grammar(request, rest, usageSeen || e.kind == UsageReport)
    ensures Grammar(request, [e] + rest, usageSeen)
  {
    hide ShapeError;
    var events := [e] + rest;
    assert events[1..] == rest;
    assert forall i :: 0 < i < |events| ==> events[i] == rest[i - 1];
  }

  // ----- recorded turns -----

  /** A well-formed turn, or the rest of one after `usageSeen`. */
  ghost predicate RecordedFrom(turn: seq<Event>, usageSeen: bool) {
    && turn != []
    && (forall i :: 0 <= i < |turn| ==> ShapeError(turn[i]).None?)
    && (forall i :: 0 <= i < |turn| - 1 ==> !Terminal(turn[i]))
    && Terminal(turn[|turn| - 1])
    && UsageCount(turn) + Set(usageSeen) <= 1
    && (turn[|turn| - 1].kind == Finish ==> UsageCount(turn) + Set(usageSeen) == 1)
  }

  ghost predicate Recorded(turn: seq<Event>) {
    RecordedFrom(turn, false)
  }

  lemma UsageCountSnoc(events: seq<Event>, e: Event)
    ensures UsageCount(events + [e]) == UsageCount(events) + Set(e.kind == UsageReport)
  {
    if events == [] {
      assert events + [e] == [e];
    } else {
      assert (events + [e])[1..] == events[1..] + [e];
      UsageCountSnoc(events[1..], e);
    }
  }

  lemma UsageCountPrefix(events: seq<Event>, n: nat)
    requires n <= |events|
    ensures UsageCount(events[..n]) <= UsageCount(events)
    decreases |events| - n
  {
    if n < |events| {
      UsageCountPrefix(events, n + 1);
      assert events[..n + 1] == events[..n] + [events[n]];
      UsageCountSnoc(events[..n], events[n]);
    } else {
      assert events[..n] == events;
    }
  }

  lemma NoUsage()
    ensures UsageCount([]) == 0
  {
  }

  lemma EarlyFinish(turn: seq<Event>, index: nat)
    requires index < |turn| && turn[index].kind == Finish && UsageCount(turn[..index + 1]) != 1
    ensures !Recorded(turn)
  {
    if index == |turn| - 1 {
      assert turn[..index + 1] == turn;
    }
  }

  /** Accepts exactly the well-formed turns. */
  method ValidateRecordedTurn(turn: seq<Event>) returns (ok: bool)
    ensures ok <==> Recorded(turn)
  {
    hide ShapeError, UsageCount;
    assert turn[..0] == [] && UsageCount([]) == 0 by { NoUsage(); }
    var terminal := false;
    var usageCount := 0;
    for index := 0 to |turn|
      invariant usageCount == UsageCount(turn[..index]) <= 1
      invariant forall i :: 0 <= i < index ==> ShapeError(turn[i]).None?
      invariant forall i :: 0 <= i < index - 1 ==> !Terminal(turn[i])
      invariant terminal <==> index > 0 && Terminal(turn[index - 1])
      invariant terminal && turn[index - 1].kind == Finish ==> usageCount == 1
    {
      var event := turn[index];
      assert turn[..index + 1] == turn[..index] + [event];
      UsageCountSnoc(turn[..index], event);
      UsageCountPrefix(turn, index + 1);
      if terminal {
        return false;
      }
      if ShapeError(event).Some? {
        return false;
      }
      match event.kind {
        case UsageReport =>
          usageCount := usageCount + 1;
          if usageCount > 1 {
            return false;
          }
        case Finish =>
          if usageCount != 1 {
            EarlyFinish(turn, index);
            return false;
          }
          terminal := true;
        case Error => terminal := true;
        case _ =>
      }
    }
    assert turn[..|turn|] == turn;
    return terminal;
  }

  function Scripted(turn: seq<Event>): seq<Item> {
    seq(|turn|, i requires 0 <= i < |turn| => Got(turn[i]))
  }

  predicate CallFits(request: Request, call: ToolCall) {
    var contract := FindContract(request.tools, call.name);
    if contract.None? then request.tools == [] && call.name == PHASE1_PATCH
    else AcceptsInput(contract.value, call.arguments)
  }

  predicate EventFits(request: Request, e: Event) {
    && (e.kind == ToolRequest && e.toolCall.Some? ==> CallFits(request, e.toolCall.value))
    && (e.kind == UsageReport && e.usage.Some? && request.tokenLimit > 0 ==> e.usage.value.total <= request.tokenLimit)
  }

  /** Whether the request accepts the calls and the usage of a turn. */
  predicate Fits(request: Request, turn: seq<Event>) {
    forall i :: 0 <= i < |turn| ==> EventFits(request, turn[i])
  }

  /** Validation of a well-shaped event in a well-formed turn is just its fitting. */
  lemma FitsIsValid(request: Request, e: Event, usageSeen: bool)
    requires ShapeError(e).None? && (e.kind == UsageReport ==> !usageSeen) && (e.kind == Finish ==> usageSeen)
    ensures EventError(request, e, usageSeen).None? <==> EventFits(request, e)
  {
  }

  lemma RecordedTail(turn: seq<Event>, usageSeen: bool)
    requires RecordedFrom(turn, usageSeen) && !Terminal(turn[0])
    ensures RecordedFrom(turn[1..], usageSeen || turn[0].kind == UsageReport)
    ensures turn[0].kind == UsageReport ==> !usageSeen
  {
    hide ShapeError;
  }

  lemma RecordedSingle(turn: seq<Event>, usageSeen: bool)
    requires RecordedFrom(turn, usageSeen) && Terminal(turn[0])
    ensures |turn| == 1 && (turn[0].kind == Finish ==> usageSeen)
  {
    hide ShapeError;
    if |turn| == 1 {
      assert turn[1..] == [] && UsageCount(turn[1..]) == 0;
      assert UsageCount(turn) == Set(turn[0].kind == UsageReport);
    }
  }

  lemma ScriptedTail(turn: seq<Event>)
    requires turn != []
    ensures |Scripted(turn)| == |turn|
    ensures Scripted(turn)[0] == Got(turn[0]) && Scripted(turn)[1..] == Scripted(turn[1..])
  {
  }

  lemma {:induction false} ReplayFrom(request: Request, turn: seq<Event>, usageSeen: bool)
    requires RecordedFrom(turn, usageSeen)
    ensures Normalize(request, Scripted(turn), usageSeen) == turn <==> Fits(request, turn)
    decreases |turn|
  {
    hide ShapeError, EventError, EventFits, UsageCount, Scripted;
    ScriptedTail(turn);
    var e, rest := turn[0], turn[1..];
    var out := Normalize(request, Scripted(turn), usageSeen);
    assert turn == [e] + rest;
    assert Fits(request, turn) <==> EventFits(request, e) && Fits(request, rest);
    if Terminal(e) {
      RecordedSingle(turn, usageSeen);
      FitsIsValid(request, e, usageSeen);
      TerminalFits(request, e);
    } else {
      var later := usageSeen || e.kind == UsageReport;
      RecordedTail(turn, usageSeen);
      FitsIsValid(request, e, usageSeen);
      ReplayFrom(request, rest, later);
      var tail := Normalize(request, Scripted(rest), later);
      if EventError(request, e, usageSeen).None? {
        assert out == [e] + tail && out[1..] == tail && turn[1..] == rest;
      } else {
        assert out[0].kind == Error;
      }
    }
  }

  lemma TerminalFits(request: Request, e: Event)
    requires Terminal(e)
    ensures EventFits(request, e)
  {
  }

  /** A recorded turn comes out of the stream unchanged exactly when its calls and usage fit the request. */
  lemma ReplayFidelity(request: Request, turn: seq<Event>)
    requires Recorded(turn)
    ensures Normalize(request, Scripted(turn), false) == turn <==> Fits(request, turn)
  {
    ReplayFrom(request, turn, false);
  }

  class ReplayReasoner {
    const turns: seq<seq<Event>>
    var nextTurn: nat

    constructor (turns: seq<seq<Event>>)
      ensures this.turns == turns && nextTurn == 0
    {
      this.turns, nextTurn := turns, 0;
    }

    /** Plays the turns in order, each once, and an error after the last. */
    method Reason(request: Request) returns (stream: NormalizedStream)
      modifies this
      ensures fresh(stream) && stream.Valid()
      ensures old(nextTurn) < |turns| ==>
                nextTurn == old(nextTurn) + 1
                && stream.Rest() == Normalize(request, Scripted(turns[old(nextTurn)]), false)
                && (Recorded(turns[old(nextTurn)]) ==>
                      (stream.Rest() == turns[old(nextTurn)] <==> Fits(request, turns[old(nextTurn)])))
      ensures old(nextTurn) >= |turns| ==>
                nextTurn == old(nextTurn) && |stream.Rest()| == 1 && stream.Rest()[0].kind == Error
    {
      if nextTurn >= |turns| {
        var failure := ErrorOf(StreamError(Internal, "recorded cassette has no remaining turn", false));
        stream := new NormalizedStream(request, [Got(failure)]);
        return;
      }
      var events := turns[nextTurn];
      nextTurn := nextTurn + 1;
      stream := new NormalizedStream(request, Scripted(events));
      if Recorded(events) {
        ReplayFidelity(request, events);
      }
    }
  }
}
