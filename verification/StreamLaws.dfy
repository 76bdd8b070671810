/** What a normalized stream refuses and yields, stated without its code. */
module StreamLaws {
  import opened Wrappers
  import opened Stream
  import CodingAgent

  /** An event of one kind with exactly its own variant, well formed. */
  ghost predicate WellShaped(e: Event) {
    match e.kind
    case TextDelta => e.text != "" && e == Event(TextDelta, e.text, None, None, None, None)
    case ToolRequest =>
      e.toolCall.Some? && e == Event(ToolRequest, "", e.toolCall, None, None, None)
      && e.toolCall.value.id != "" && e.toolCall.value.name != "" && e.toolCall.value.arguments != ""
      && JsonValid(e.toolCall.value.arguments)
    case UsageReport =>
      e.usage.Some? && e == Event(UsageReport, "", None, e.usage, None, None)
      && e.usage.value.input >= 0 && e.usage.value.output >= 0
      && e.usage.value.total >= e.usage.value.input + e.usage.value.output
    case Finish => e.finish.Some? && e == Event(Finish, "", None, None, e.finish, None) && e.finish.value != ""
    case Error =>
      e.error.Some? && e == Event(Error, "", None, None, None, e.error)
      && e.error.value.class_ != NoClass && e.error.value.message != ""
    case Unsupported(_) => false
  }

  /** Everything about a call is right but its arguments are not JSON. */
  ghost predicate BadArguments(e: Event) {
    e.toolCall.Some? && e == Event(ToolRequest, "", e.toolCall, None, None, None)
    && e.toolCall.value.id != "" && e.toolCall.value.name != "" && e.toolCall.value.arguments != ""
    && !JsonValid(e.toolCall.value.arguments)
  }

  /** Exactly the well-shaped events pass; the refusal names the arguments only if they alone are wrong. */
  lemma ShapeLaw(e: Event)
    ensures ShapeError(e).None? <==> WellShaped(e)
    ensures ShapeError(e).Some? ==>
              !ShapeError(e).value.retryable
              && ShapeError(e).value.class_ == if BadArguments(e) then InvalidToolArguments else InvalidEvent
  {
    VariantsLaw(e);
  }

  lemma VariantsLaw(e: Event)
    ensures Variants(e) == 1 && e.text != "" <==> e == Event(e.kind, e.text, None, None, None, None) && e.text != ""
    ensures Variants(e) == 1 && e.toolCall.Some? <==> e == Event(e.kind, "", e.toolCall, None, None, None) && e.toolCall.Some?
    ensures Variants(e) == 1 && e.usage.Some? <==> e == Event(e.kind, "", None, e.usage, None, None) && e.usage.Some?
    ensures Variants(e) == 1 && e.finish.Some? <==> e == Event(e.kind, "", None, None, e.finish, None) && e.finish.Some?
    ensures Variants(e) == 1 && e.error.Some? <==> e == Event(e.kind, "", None, None, None, e.error) && e.error.Some?
  {
  }

  /** The first registered contract of the call's name. */
  ghost predicate Governs(tools: seq<Contract>, k: int, name: string) {
    0 <= k < |tools| && tools[k].name == name && forall i :: 0 <= i < k ==> tools[i].name != name
  }

  lemma {:induction false} ContractLaw(tools: seq<Contract>, name: string)
    ensures FindContract(tools, name).None? <==> forall i :: 0 <= i < |tools| ==> tools[i].name != name
    ensures forall k :: Governs(tools, k, name) ==> FindContract(tools, name) == Some(tools[k])
  {
    if tools != [] && tools[0].name != name {
      ContractLaw(tools[1..], name);
      assert forall i :: 0 < i < |tools| ==> tools[i] == tools[1..][i - 1];
      forall k | Governs(tools, k, name)
        ensures FindContract(tools, name) == Some(tools[k])
      {
        assert Governs(tools[1..], k - 1, name);
      }
    }
  }

  /** Which class a request refuses a well-shaped event with, if any. */
  lemma RefusalLaw(request: Request, e: Event, usageSeen: bool)
    requires WellShaped(e)
    ensures
      match EventError(request, e, usageSeen)
      case None =>
        && (e.kind == ToolRequest ==>
              (request.tools == [] && e.toolCall.value.name == PHASE1_PATCH)
              || exists k :: Governs(request.tools, k, e.toolCall.value.name)
                             && AcceptsInput(request.tools[k], e.toolCall.value.arguments))
        && (e.kind == UsageReport ==> !usageSeen && (request.tokenLimit <= 0 || e.usage.value.total <= request.tokenLimit))
        && (e.kind == Finish ==> request.tools == [] || usageSeen)
      case Some(refusal) =>
        && !refusal.retryable
        && match refusal.class_
           case InvalidTool =>
             e.kind == ToolRequest && (request.tools == [] ==> e.toolCall.value.name != PHASE1_PATCH)
             && forall i :: 0 <= i < |request.tools| ==> request.tools[i].name != e.toolCall.value.name
           case InvalidToolArguments =>
             e.kind == ToolRequest
             && exists k :: Governs(request.tools, k, e.toolCall.value.name)
                            && !AcceptsInput(request.tools[k], e.toolCall.value.arguments)
           case TokenBudgetExceeded => e.kind == UsageReport && !usageSeen && 0 < request.tokenLimit < e.usage.value.total
           case InvalidEvent => (e.kind == UsageReport && usageSeen) || (e.kind == Finish && request.tools != [] && !usageSeen)
           case _ => false
  {
    hide ShapeError, WellShaped;
    ShapeLaw(e);
    if e.kind == ToolRequest {
      CallHasName(e);
      var name := e.toolCall.value.name;
      ContractLaw(request.tools, name);
      if i :| 0 <= i < |request.tools| && request.tools[i].name == name {
        var k := FirstOf(request.tools, name, i);
        assert Governs(request.tools, k, name);
      }
    } else if e.kind == UsageReport {
      ReportHasUsage(e);
    }
  }

  lemma CallHasName(e: Event)
    requires WellShaped(e) && e.kind == ToolRequest
    ensures e.toolCall.Some?
  {
  }

  lemma ReportHasUsage(e: Event)
    requires WellShaped(e) && e.kind == UsageReport
    ensures e.usage.Some?
  {
  }

  lemma {:induction false} FirstOf(tools: seq<Contract>, name: string, i: nat) returns (k: nat)
    requires i < |tools| && tools[i].name == name
    ensures Governs(tools, k, name)
  {
    k := i;
    if j :| 0 <= j < i && tools[j].name == name {
      k := FirstOf(tools, name, j);
    }
  }

  ghost predicate Reported(script: seq<Item>, n: nat, usageSeen: bool)
    requires n <= |script|
  {
    usageSeen || exists i :: 0 <= i < n && script[i].Got? && script[i].event.kind == UsageReport
  }

  /** The first `n` items are events that pass and do not end the turn. */
  ghost predicate Passes(request: Request, script: seq<Item>, n: nat, usageSeen: bool)
    requires n <= |script|
  {
    forall i :: 0 <= i < n ==>
      script[i].Got? && !Terminal(script[i].event) && EventError(request, script[i].event, Reported(script, i, usageSeen)).None?
  }

  /** The one event that ends the turn at item `n`. */
  ghost predicate EndsWith(request: Request, script: seq<Item>, n: nat, usageSeen: bool, last: Event)
    requires n <= |script|
  {
    if n == |script| then last.kind == Error && last.error.Some? && last.error.value.class_ == StreamingInterrupted && last.error.value.retryable
    else
      match script[n]
      case Failed(error) => last == Event(Error, "", None, None, None, Some(error))
      case ContextCanceled => last.kind == Error && last.error.Some? && last.error.value.class_ == Canceled && !last.error.value.retryable
      case Interrupted =>
        last.kind == Error && last.error.Some? && last.error.value.class_ == StreamingInterrupted && last.error.value.retryable
      case Got(e) =>
        var refusal := EventError(request, e, Reported(script, n, usageSeen));
        if refusal.Some? then last == Event(Error, "", None, None, None, refusal) else Terminal(e) && last == e
  }

  /** A stream passes its source's events on unchanged up to the first one that ends the turn, and ends with that one or its error. */
  ghost predicate PassedOn(request: Request, script: seq<Item>, usageSeen: bool, out: seq<Event>) {
    && 0 < |out| <= |script| + 1
    && Passes(request, script, |out| - 1, usageSeen)
    && (forall i :: 0 <= i < |out| - 1 ==> out[i] == script[i].event)
    && EndsWith(request, script, |out| - 1, usageSeen, out[|out| - 1])
  }

  lemma {:induction false} NormalizeLaw(request: Request, script: seq<Item>, usageSeen: bool)
    ensures PassedOn(request, script, usageSeen, Normalize(request, script, usageSeen))
    decreases |script|
  {
    hide EventError;
    assert script != [] ==> Reported(script, 0, usageSeen) == usageSeen;
    if script != [] && script[0].Got? && EventError(request, script[0].event, usageSeen).None? && !Terminal(script[0].event) {
      hide PassedOn;
      var e, rest := script[0].event, script[1..];
      var later := usageSeen || e.kind == UsageReport;
      NormalizeLaw(request, rest, later);
      PassedEarlier(request, script, usageSeen, Normalize(request, rest, later));
    }
  }

  lemma PassedEarlier(request: Request, script: seq<Item>, usageSeen: bool, tail: seq<Event>)
    requires script != [] && script[0].Got? && EventError(request, script[0].event, usageSeen).None? && !Terminal(script[0].event)
    requires PassedOn(request, script[1..], usageSeen || script[0].event.kind == UsageReport, tail)
    ensures PassedOn(request, script, usageSeen, [script[0].event] + tail)
  {
    hide EventError, Reported;
    var e, rest := script[0].event, script[1..];
    var later := usageSeen || e.kind == UsageReport;
    var out := [e] + tail;
    forall n: nat | 0 < n <= |script|
      ensures Reported(script, n, usageSeen) == Reported(rest, n - 1, later)
    {
      ReportedShift(script, n, usageSeen);
    }
    NothingReported(script, usageSeen);
    assert forall i :: 0 < i < |script| ==> script[i] == rest[i - 1];
    assert forall i :: 0 < i < |out| ==> out[i] == tail[i - 1];
  }

  lemma NothingReported(script: seq<Item>, usageSeen: bool)
    ensures Reported(script, 0, usageSeen) == usageSeen
  {
  }

  lemma ReportedShift(script: seq<Item>, n: nat, usageSeen: bool)
    requires 0 < n <= |script| && script[0].Got?
    ensures Reported(script, n, usageSeen) == Reported(script[1..], n - 1, usageSeen || script[0].event.kind == UsageReport)
  {
    var rest := script[1..];
    assert forall i :: 0 <= i < |rest| ==> rest[i] == script[i + 1];
    if i :| 0 <= i < n && script[i].Got? && script[i].event.kind == UsageReport && i > 0 {
      assert rest[i - 1].Got? && rest[i - 1].event.kind == UsageReport;
    }
  }

  // ----- requests -----

  /** The only system authority in an accepted request is the agent's own contract, at the front; every tool message names its call. */
  lemma AuthorityLaw(request: Request, i: nat)
    requires CodingAgent.RequestRules(request) && i < |request.messages|
    ensures
      var m := request.messages[i];
      match m.role
      case System => i == 0 && m == Message(System, CodingAgent.SYSTEM_CONTRACT, [], "", "")
      case User => m == Message(User, m.content, [], "", "")
      case Assistant =>
        m == Message(Assistant, m.content, m.toolCalls, "", "")
        && forall call :: call in m.toolCalls ==> call.id != "" && call.name != "" && call.arguments != "" && JsonValid(call.arguments)
      case Tool => m == Message(Tool, m.content, [], m.toolCallId, m.toolName) && m.toolCallId != "" && m.toolName != ""
      case UnknownRole(_) => false
  {
    assert CodingAgent.MessageRule(i, request.messages[i]);
  }
}
