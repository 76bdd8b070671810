/** What a collected turn holds, and what a conversation's transcript and totals are. */
module Transcript {
  import opened Wrappers
  import opened Stream
  import opened CodingAgent

  // ----- one turn -----

  /** The text deltas, joined. */
  function TextOf(events: seq<Event>): string {
    if events == [] then "" else (if events[0].kind == TextDelta then events[0].text else "") + TextOf(events[1..])
  }

  /** The tool calls, in order. */
  function CallsOf(events: seq<Event>): seq<ToolCall> {
    if events == [] then []
    else
      (if events[0].kind == ToolRequest && events[0].toolCall.Some? then [events[0].toolCall.value] else []) + CallsOf(events[1..])
  }

  lemma {:induction false} TextOfSnoc(events: seq<Event>, e: Event)
    ensures TextOf(events + [e]) == TextOf(events) + if e.kind == TextDelta then e.text else ""
  {
    if events == [] {
      assert events + [e] == [e];
    } else {
      assert (events + [e])[1..] == events[1..] + [e];
      TextOfSnoc(events[1..], e);
    }
  }

  lemma {:induction false} CallsOfSnoc(events: seq<Event>, e: Event)
    ensures CallsOf(events + [e]) == CallsOf(events) + if e.kind == ToolRequest && e.toolCall.Some? then [e.toolCall.value] else []
  {
    if events == [] {
      assert events + [e] == [e];
    } else {
      assert (events + [e])[1..] == events[1..] + [e];
      CallsOfSnoc(events[1..], e);
    }
  }

  /** The last of its kind. */
  ghost predicate Latest(events: seq<Event>, k: int, kind: EventKind) {
    0 <= k < |events| && events[k].kind == kind && forall i :: k < i < |events| ==> events[i].kind != kind
  }

  /** Usage and finish reason are the last ones reported. */
  ghost predicate LastReports(events: seq<Event>, r: TurnResult) {
    && (forall k :: Latest(events, k, UsageReport) ==> events[k].usage == Some(r.usage))
    && (forall k :: Latest(events, k, Finish) ==> events[k].finish == Some(r.finishReason))
    && ((forall i :: 0 <= i < |events| ==> events[i].kind != UsageReport) ==> r.usage == Usage(0, 0, 0))
    && ((forall i :: 0 <= i < |events| ==> events[i].kind != Finish) ==> r.finishReason == "")
  }

  lemma {:induction false} GatherLaw(events: seq<Event>)
    requires forall i :: 0 <= i < |events| ==> ShapeError(events[i]).None?
    ensures
      var r := Gather(events);
      r.output == TextOf(events) && r.toolCalls == CallsOf(events) && LastReports(events, r)
  {
    hide ShapeError, LastReports;
    if events == [] {
      NoReports();
    } else {
      var n := |events| - 1;
      var earlier, e := events[..n], events[n];
      GatherLaw(earlier);
      assert events == earlier + [e];
      TextOfSnoc(earlier, e);
      CallsOfSnoc(earlier, e);
      ReportsSnoc(earlier, e, Gather(earlier));
    }
  }

  lemma NoReports()
    ensures LastReports([], NO_TURN)
  {
  }

  lemma ReportsSnoc(events: seq<Event>, e: Event, r: TurnResult)
    requires LastReports(events, r) && ShapeError(e).None?
    ensures LastReports(events + [e], Added(r, e))
  {
    hide ShapeError;
    var longer, n := events + [e], |events|;
    if e.kind == UsageReport {
      HasUsage(e);
    } else if e.kind == Finish {
      HasFinish(e);
    }
    assert longer[n] == e;
    assert forall i :: 0 <= i < n ==> longer[i] == events[i];
    assert forall k, kind :: Latest(longer, k, kind) && k < n ==> Latest(events, k, kind);
  }

  /** A stream's turn collects to the error that ends it, or to its calls, text, usage and finish reason. */
  lemma CollectedLaw(request: Request, script: seq<Item>)
    ensures
      var events := Normalize(request, script, false);
      var last := events[|events| - 1];
      match Collected(events)
      case Failure(error) => last.kind == Error && last.error == Some(error)
      case Success(r) =>
        && last.kind == Finish && last.finish == Some(r.finishReason)
        && r.output == TextOf(events) && r.toolCalls == CallsOf(events) && LastReports(events, r)
  {
    hide ShapeError, Gather, Normalize;
    var events := Normalize(request, script, false);
    TurnsEndProperly(request, script, false);
    if events[|events| - 1].kind == Finish {
      GatherLaw(events);
      assert Latest(events, |events| - 1, Finish);
    }
  }

  // ----- the conversation -----

  /** A finished turn: what it collected and what its calls were answered. */
  datatype Turn = Turn(result: TurnResult, replies: seq<string>)

  /** One tool message a reply: it names the call it answers, in call order. */
  ghost predicate Answers(messages: seq<Message>, calls: seq<ToolCall>, replies: seq<string>) {
    && |messages| == |replies| <= |calls|
    && forall i :: 0 <= i < |replies| ==>
         messages[i].role == Tool && messages[i].toolCallId == calls[i].id && messages[i].toolName == calls[i].name
         && messages[i].content == replies[i] && messages[i].toolCalls == []
  }

  /** The assistant's message, and then the answers to its calls. */
  ghost predicate Spoke(messages: seq<Message>, turn: Turn) {
    && messages != []
    && messages[0].role == Assistant && messages[0].content == turn.result.output && messages[0].toolCalls == turn.result.toolCalls
    && messages[0].toolCallId == "" && messages[0].toolName == ""
    && Answers(messages[1..], turn.result.toolCalls, turn.replies)
  }

  /** The messages of the turns, one after the other. */
  ghost predicate Dialogue(messages: seq<Message>, turns: seq<Turn>)
    decreases |turns|
  {
    if turns == [] then messages == []
    else
      var last := turns[|turns| - 1];
      var n := |messages| - 1 - |last.replies|;
      n >= 0 && Dialogue(messages[..n], turns[..|turns| - 1]) && Spoke(messages[n..], last)
  }

  function Outputs(turns: seq<Turn>): string {
    if turns == [] then "" else turns[0].result.output + Outputs(turns[1..])
  }

  function Total(turns: seq<Turn>, part: Usage -> int): int {
    if turns == [] then 0 else part(turns[0].result.usage) + Total(turns[1..], part)
  }

  const INPUT := (u: Usage) => u.input
  const OUTPUT := (u: Usage) => u.output
  const TOKENS := (u: Usage) => u.total

  function Calls(turns: seq<Turn>): nat {
    if turns == [] then 0 else |turns[0].replies| + Calls(turns[1..])
  }

  /** Calls were made in order, with the tokens spent up to and including their turn. */
  ghost predicate Made(invoked: seq<Invocation>, calls: seq<ToolCall>, spent: int) {
    |invoked| <= |calls| && forall i :: 0 <= i < |invoked| ==> invoked[i] == Invocation(calls[i], spent)
  }

  ghost predicate AllMade(invoked: seq<Invocation>, turns: seq<Turn>)
    decreases |turns|
  {
    if turns == [] then invoked == []
    else
      var last := turns[|turns| - 1];
      var n := |invoked| - |last.replies|;
      n >= 0 && AllMade(invoked[..n], turns[..|turns| - 1]) && Made(invoked[n..], last.result.toolCalls, Total(turns, TOKENS))
  }

  /** The progress is what these turns add up to. */
  ghost predicate AddsUp(request: Request, turns: seq<Turn>, p: Progress) {
    && p.turns == |turns|
    && request.messages <= p.messages && Dialogue(p.messages[|request.messages|..], turns)
    && p.text == Outputs(turns)
    && p.usage == Usage(Total(turns, INPUT), Total(turns, OUTPUT), Total(turns, TOKENS))
    && p.remaining == request.tokenLimit - Total(turns, TOKENS)
    && p.toolCalls == Calls(turns)
    && AllMade(p.invoked, turns)
  }

  /** What the turn after these is asked and collects. */
  function Heard(env: Surroundings, request: Request, p: Progress, turn: nat): Result<TurnResult, StreamError> {
    var asked := request.(messages := p.messages, tokenLimit := p.remaining);
    Collected(Normalize(asked, env.reason(turn, asked), false))
  }

  /** Every call of a turn was answered with what the tool service said. */
  ghost predicate Answered(env: Surroundings, turn: nat, calls: seq<ToolCall>, replies: seq<string>) {
    |replies| <= |calls| && forall i :: 0 <= i < |replies| ==> env.invoke(turn, i, calls[i]) == Some(replies[i])
  }

  /** A turn that was made within budget, with calls that were all answered. */
  ghost predicate Took(env: Surroundings, request: Request, p: Progress, t: Turn, q: Progress) {
    var turn := p.turns + 1;
    && turn <= env.maxTurns && !env.cancelled(turn) && Heard(env, request, p, turn) == Success(t.result)
    && q.remaining >= 0 && t.result.toolCalls != []
    && |t.replies| == |t.result.toolCalls| && Answered(env, turn, t.result.toolCalls, t.replies)
  }

  /** The states of a conversation, one before each turn. */
  ghost predicate Held(env: Surroundings, request: Request, turns: seq<Turn>, states: seq<Progress>) {
    && |states| == |turns| + 1 && states[0] == Begin(request)
    && (forall k :: 0 <= k < |states| ==> AddsUp(request, turns[..k], states[k]))
    && (forall k :: 0 <= k < |turns| ==> Took(env, request, states[k], turns[k], states[k + 1]))
  }

  /** The turn after `p` may begin. */
  ghost predicate Allowed(env: Surroundings, turn: nat) {
    turn <= env.maxTurns && !env.cancelled(turn)
  }

  /** The turn after `p` was collected within budget. */
  ghost predicate Afforded(env: Surroundings, request: Request, p: Progress) {
    var heard := Heard(env, request, p, p.turns + 1);
    Allowed(env, p.turns + 1) && heard.Success? && p.usage.total + heard.value.usage.total <= request.tokenLimit
  }

  /** How the conversation ended in the turn after `p`, and why. */
  ghost predicate Concluded(env: Surroundings, request: Request, turns: seq<Turn>, p: Progress, ended: Ended) {
    var turn := p.turns + 1;
    var heard := Heard(env, request, p, turn);
    match ended
    case Answered(q) =>
      && Afforded(env, request, p) && heard.value.toolCalls == [] && heard.value.finishReason != "tool_calls"
      && AddsUp(request, turns + [Turn(heard.value, [])], q)
    case Stopped(error, invoked) =>
      if error == ToolFailed then Afforded(env, request, p) && exists replies :: FailedAt(env, p, heard.value, replies, invoked)
      else invoked == p.invoked && Cause(env, request, p, error)
  }

  ghost predicate Cause(env: Surroundings, request: Request, p: Progress, error: AgentError) {
    var turn := p.turns + 1;
    var heard := Heard(env, request, p, turn);
    match error
    case TurnBudgetExceeded => p.turns == env.maxTurns
    case CallerCancelled => turn <= env.maxTurns && env.cancelled(turn)
    case StreamFailed(failure) => Allowed(env, turn) && heard == Failure(failure)
    case BudgetExceeded => Allowed(env, turn) && heard.Success? && p.usage.total + heard.value.usage.total > request.tokenLimit
    case MissingCalls => Afforded(env, request, p) && heard.value.toolCalls == [] && heard.value.finishReason == "tool_calls"
    case _ => false
  }

  /** The first call without an answer is the last one made. */
  ghost predicate FailedAt(env: Surroundings, p: Progress, r: TurnResult, replies: seq<string>, invoked: seq<Invocation>) {
    && |replies| < |r.toolCalls| && Answered(env, p.turns + 1, r.toolCalls, replies)
    && env.invoke(p.turns + 1, |replies|, r.toolCalls[|replies|]).None?
    && p.invoked <= invoked && |invoked| == |p.invoked| + |replies| + 1
    && Made(invoked[|p.invoked|..], r.toolCalls, p.usage.total + r.usage.total)
  }

  lemma {:induction false} TotalSnoc(turns: seq<Turn>, t: Turn, part: Usage -> int)
    ensures Total(turns + [t], part) == Total(turns, part) + part(t.result.usage)
  {
    if turns == [] {
      assert turns + [t] == [t];
    } else {
      assert (turns + [t])[1..] == turns[1..] + [t];
      TotalSnoc(turns[1..], t, part);
    }
  }

  lemma {:induction false} OutputsSnoc(turns: seq<Turn>, t: Turn)
    ensures Outputs(turns + [t]) == Outputs(turns) + t.result.output && Calls(turns + [t]) == Calls(turns) + |t.replies|
  {
    if turns == [] {
      assert turns + [t] == [t];
    } else {
      assert (turns + [t])[1..] == turns[1..] + [t];
      OutputsSnoc(turns[1..], t);
    }
  }

  /** What a turn's calls add: their answers, in order, up to the first that fails. */
  ghost predicate Invoking(env: Surroundings, p: Progress, turn: nat, calls: seq<ToolCall>, replies: seq<string>, q: Progress, ok: bool) {
    && Answered(env, turn, calls, replies) && (ok <==> |replies| == |calls|)
    && (!ok ==> env.invoke(turn, |replies|, calls[|replies|]).None?)
    && q == p.(messages := q.messages, invoked := q.invoked, toolCalls := p.toolCalls + |replies|)
    && p.messages <= q.messages && Answers(q.messages[|p.messages|..], calls, replies)
    && p.invoked <= q.invoked && |q.invoked| == |p.invoked| + |replies| + (if ok then 0 else 1)
    && Made(q.invoked[|p.invoked|..], calls, p.usage.total)
  }

  lemma {:induction false} InvokingLaw(env: Surroundings, p: Progress, now: Progress, turn: nat, calls: seq<ToolCall>, before: seq<string>)
      returns (replies: seq<string>)
    requires |before| <= |calls|
    requires Answered(env, turn, calls, before) && p.messages <= now.messages && Answers(now.messages[|p.messages|..], calls, before)
    requires now == p.(messages := now.messages, invoked := now.invoked, toolCalls := p.toolCalls + |before|)
    requires p.invoked <= now.invoked && |now.invoked| == |p.invoked| + |before| && Made(now.invoked[|p.invoked|..], calls, p.usage.total)
    ensures Invoking(env, p, turn, calls, replies, InvokeAll(env, now, turn, calls, |before|).0, InvokeAll(env, now, turn, calls, |before|).1)
    decreases |calls| - |before|
  {
    hide Made, Answers;
    replies := before;
    var k := |before|;
    if k < |calls| {
      var called := Invoked(now, calls[k]);
      MadeSnoc(now.invoked, |p.invoked|, calls, p.usage.total);
      var answer := env.invoke(turn, k, calls[k]);
      if answer.Some? {
        var next := Replied(called, calls[k], answer.value);
        AnswersSnoc(now.messages, |p.messages|, calls, before, answer.value);
        replies := InvokingLaw(env, p, next, turn, calls, before + [answer.value]);
      }
    }
  }

  lemma MadeSnoc(invoked: seq<Invocation>, n: nat, calls: seq<ToolCall>, spent: int)
    requires n <= |invoked| && |invoked| - n < |calls| && Made(invoked[n..], calls, spent)
    ensures Made((invoked + [Invocation(calls[|invoked| - n], spent)])[n..], calls, spent)
  {
    var longer := invoked + [Invocation(calls[|invoked| - n], spent)];
    assert longer[n..] == invoked[n..] + [Invocation(calls[|invoked| - n], spent)];
  }

  lemma AnswersSnoc(messages: seq<Message>, n: nat, calls: seq<ToolCall>, replies: seq<string>, reply: string)
    requires n <= |messages| && |replies| < |calls| && Answers(messages[n..], calls, replies)
    ensures
      var call := calls[|replies|];
      Answers((messages + [Message(Tool, reply, [], call.id, call.name)])[n..], calls, replies + [reply])
  {
    var call := calls[|replies|];
    var m := Message(Tool, reply, [], call.id, call.name);
    assert (messages + [m])[n..] == messages[n..] + [m];
  }

  /** Spending, speaking and answering adds the turn to what adds up. */
  lemma TurnAddsUp(request: Request, turns: seq<Turn>, p: Progress, r: TurnResult, replies: seq<string>, q: Progress)
    requires AddsUp(request, turns, p)
    requires
      var spoken := Spoken(Spend(p, p.turns + 1, r), r);
      && q == spoken.(messages := q.messages, invoked := q.invoked, toolCalls := spoken.toolCalls + |replies|)
      && spoken.messages <= q.messages && Answers(q.messages[|spoken.messages|..], r.toolCalls, replies)
      && p.invoked <= q.invoked && |q.invoked| == |p.invoked| + |replies| && Made(q.invoked[|p.invoked|..], r.toolCalls, spoken.usage.total)
    ensures AddsUp(request, turns + [Turn(r, replies)], q)
  {
    hide Answers, Made;
    var t := Turn(r, replies);
    var longer := turns + [t];
    TotalSnoc(turns, t, INPUT);
    TotalSnoc(turns, t, OUTPUT);
    TotalSnoc(turns, t, TOKENS);
    OutputsSnoc(turns, t);
    assert longer[..|longer| - 1] == turns && longer[|longer| - 1] == t;
    DialogueSnoc(request, turns, p, t, q);
    assert q.invoked[..|p.invoked|] == p.invoked;
  }

  lemma DialogueSnoc(request: Request, turns: seq<Turn>, p: Progress, t: Turn, q: Progress)
    requires request.messages <= p.messages && Dialogue(p.messages[|request.messages|..], turns)
    requires
      var spoken := p.messages + [Message(Assistant, t.result.output, t.result.toolCalls, "", "")];
      spoken <= q.messages && Answers(q.messages[|spoken|..], t.result.toolCalls, t.replies)
    ensures request.messages <= q.messages && Dialogue(q.messages[|request.messages|..], turns + [t])
  {
    var m := |request.messages|;
    var n := |p.messages| - m;
    var said := q.messages[m..];
    var longer := turns + [t];
    assert longer[..|longer| - 1] == turns && longer[|longer| - 1] == t;
    assert |q.messages[|p.messages| + 1..]| == |t.replies| by { AnswersLength(q.messages[|p.messages| + 1..], t.result.toolCalls, t.replies); }
    assert said[..n] == p.messages[m..];
    assert said[n..][1..] == q.messages[|p.messages| + 1..];
    assert said[n] == q.messages[|p.messages|];
  }

  lemma AnswersLength(messages: seq<Message>, calls: seq<ToolCall>, replies: seq<string>)
    requires Answers(messages, calls, replies)
    ensures |messages| == |replies|
  {
  }

  /** The conversation went through these states and ended so. */
  ghost predicate Accounted(env: Surroundings, request: Request, turns: seq<Turn>, states: seq<Progress>, ended: Ended) {
    |states| == |turns| + 1 && Held(env, request, turns, states) && Concluded(env, request, turns, states[|turns|], ended)
  }

  lemma BeginHolds(env: Surroundings, request: Request)
    ensures Held(env, request, [], [Begin(request)])
  {
    var p := Begin(request);
    assert p.messages[|request.messages|..] == [];
  }

  lemma HeldSnoc(env: Surroundings, request: Request, turns: seq<Turn>, states: seq<Progress>, t: Turn, q: Progress)
    requires Held(env, request, turns, states) && Took(env, request, states[|turns|], t, q) && AddsUp(request, turns + [t], q)
    ensures Held(env, request, turns + [t], states + [q])
  {
    hide Took, AddsUp, Begin;
    var longer, later := turns + [t], states + [q];
    forall k | 0 <= k < |later|
      ensures AddsUp(request, longer[..k], later[k])
    {
      if k <= |turns| {
        assert longer[..k] == turns[..k];
      } else {
        assert longer[..k] == longer;
      }
    }
    forall k | 0 <= k < |longer|
      ensures Took(env, request, later[k], longer[k], later[k + 1])
    {
      if k < |turns| {
        assert later[k] == states[k] && later[k + 1] == states[k + 1] && longer[k] == turns[k];
      }
    }
  }

  lemma {:induction false} AccountFrom(env: Surroundings, request: Request, turns: seq<Turn>, states: seq<Progress>)
      returns (all: seq<Turn>, through: seq<Progress>)
    requires |states| == |turns| + 1 && Held(env, request, turns, states) && |turns| <= env.maxTurns
    ensures |through| == |all| + 1 && Accounted(env, request, all, through, Converse(env, request, states[|turns|], |turns| + 1))
    decreases env.maxTurns - |turns|
  {
    hide Normalize, Collected, InvokeAll, AddsUp, Took, Concluded, Held;
    all, through := turns, states;
    HeldNow(env, request, turns, states);
    var p, turn := states[|turns|], |turns| + 1;
    var ended := Converse(env, request, p, turn);
    var heard := Heard(env, request, p, turn);
    if turn > env.maxTurns || env.cancelled(turn) || heard.Failure? || p.remaining < heard.value.usage.total || heard.value.toolCalls == [] {
      EndsHere(env, request, turns, p);
      return;
    }
    var r := heard.value;
    var spoken := Spoken(Spend(p, turn, r), r);
    var q, ok := InvokeAll(env, spoken, turn, r.toolCalls, 0).0, InvokeAll(env, spoken, turn, r.toolCalls, 0).1;
    NothingYet(env, spoken, turn, r.toolCalls);
    var replies := InvokingLaw(env, spoken, spoken, turn, r.toolCalls, []);
    if !ok {
      FailsHere(env, request, turns, p, replies);
      return;
    }
    TurnTaken(env, request, turns, p, r, replies, q);
    HeldSnoc(env, request, turns, states, Turn(r, replies), q);
    assert ended == Converse(env, request, q, turn + 1);
    all, through := AccountFrom(env, request, turns + [Turn(r, replies)], states + [q]);
  }

  lemma NothingYet(env: Surroundings, p: Progress, turn: nat, calls: seq<ToolCall>)
    ensures Answered(env, turn, calls, []) && Answers(p.messages[|p.messages|..], calls, [])
    ensures Made(p.invoked[|p.invoked|..], calls, p.usage.total)
  {
  }

  lemma HeldNow(env: Surroundings, request: Request, turns: seq<Turn>, states: seq<Progress>)
    requires |states| == |turns| + 1 && Held(env, request, turns, states)
    ensures AddsUp(request, turns, states[|turns|])
    ensures states[|turns|].turns == |turns|
    ensures states[|turns|].usage.total + states[|turns|].remaining == request.tokenLimit
  {
    assert turns[..|turns|] == turns;
  }

  lemma TurnTaken(env: Surroundings, request: Request, turns: seq<Turn>, p: Progress, r: TurnResult, replies: seq<string>, q: Progress)
    requires AddsUp(request, turns, p) && p.turns == |turns| < env.maxTurns && !env.cancelled(p.turns + 1)
    requires Heard(env, request, p, p.turns + 1) == Success(r) && p.remaining >= r.usage.total && r.toolCalls != []
    requires Invoking(env, Spoken(Spend(p, p.turns + 1, r), r), p.turns + 1, r.toolCalls, replies, q, true)
    ensures AddsUp(request, turns + [Turn(r, replies)], q) && Took(env, request, p, Turn(r, replies), q)
  {
    hide AddsUp, Heard, Answered, Answers, Made;
    TurnAddsUp(request, turns, p, r, replies, q);
  }

  lemma EndsHere(env: Surroundings, request: Request, turns: seq<Turn>, p: Progress)
    requires AddsUp(request, turns, p) && p.turns == |turns| <= env.maxTurns
    requires p.usage.total + p.remaining == request.tokenLimit
    requires
      var heard := Heard(env, request, p, p.turns + 1);
      p.turns + 1 > env.maxTurns || env.cancelled(p.turns + 1) || heard.Failure?
      || p.remaining < heard.value.usage.total || heard.value.toolCalls == []
    ensures Concluded(env, request, turns, p, Converse(env, request, p, p.turns + 1))
  {
    hide AddsUp, Normalize, Collected, Answers, Made;
    var heard := Heard(env, request, p, p.turns + 1);
    if heard.Success? && heard.value.toolCalls == [] {
      var q := Spoken(Spend(p, p.turns + 1, heard.value), heard.value);
      NothingYet(env, q, p.turns + 1, []);
      TurnAddsUp(request, turns, p, heard.value, [], q);
    }
  }

  lemma FailsHere(env: Surroundings, request: Request, turns: seq<Turn>, p: Progress, replies: seq<string>)
    requires p.turns == |turns| < env.maxTurns && p.usage.total + p.remaining == request.tokenLimit
    requires !env.cancelled(p.turns + 1) && Heard(env, request, p, p.turns + 1).Success?
    requires
      var r := Heard(env, request, p, p.turns + 1).value;
      var spoken := Spoken(Spend(p, p.turns + 1, r), r);
      var invoked := InvokeAll(env, spoken, p.turns + 1, r.toolCalls, 0);
      && p.remaining >= r.usage.total && r.toolCalls != [] && !invoked.1
      && Invoking(env, spoken, p.turns + 1, r.toolCalls, replies, invoked.0, false)
    ensures Concluded(env, request, turns, p, Converse(env, request, p, p.turns + 1))
  {
    hide AddsUp, Normalize, Collected, Answers, Made, InvokeAll;
    var r := Heard(env, request, p, p.turns + 1).value;
    var spoken := Spoken(Spend(p, p.turns + 1, r), r);
    var q := InvokeAll(env, spoken, p.turns + 1, r.toolCalls, 0).0;
    assert FailedAt(env, p, r, replies, q.invoked);
    assert Converse(env, request, p, p.turns + 1) == Stopped(ToolFailed, q.invoked);
    assert Afforded(env, request, p);
  }

  /**
    Every conversation is accounted for: its turns in order, each asked with the transcript and the
    budget the earlier ones left, answered call by call, and an ending that is the first reason to end.
  */
  lemma ConversationAccount(env: Surroundings, request: Request)
    ensures exists turns, states :: Accounted(env, request, turns, states, Converse(env, request, Begin(request), 1))
  {
    hide Held, Concluded, Converse;
    BeginHolds(env, request);
    var turns, states := AccountFrom(env, request, [], [Begin(request)]);
    assert Accounted(env, request, turns, states, Converse(env, request, Begin(request), 1));
  }

  /** An answer's transcript, text, usage and counts are those of its turns. */
  lemma AnswerAddsUp(env: Surroundings, request: Request)
    requires Converse(env, request, Begin(request), 1).Answered?
    ensures exists turns :: AddsUp(request, turns, Converse(env, request, Begin(request), 1).p)
  {
    hide Held, AddsUp, Converse, Heard;
    var ended := Converse(env, request, Begin(request), 1);
    ConversationAccount(env, request);
    var turns: seq<Turn>, states: seq<Progress> :| Accounted(env, request, turns, states, ended);
    var last := Turn(Heard(env, request, states[|turns|], states[|turns|].turns + 1).value, []);
    assert AddsUp(request, turns + [last], ended.p);
  }
}
