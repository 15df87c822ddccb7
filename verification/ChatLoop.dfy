/** One chat turn: the assistant/tools loop, its step bound and its transcript. */
module ChatLoop {
  import opened Options

  datatype ToolCall = ToolCall(id: string, name: string, arguments: string)

  // Texts are held without surrounding blanks; a message without text holds "".
  datatype Message =
    | User(content: string)
    | Assistant(content: string, calls: seq<ToolCall>)
    | Tool(callId: string, name: string, ok: bool, actionId: Option<nat>)

  datatype Trace = Trace(name: string, ok: bool, mutating: bool)

  // A pending action; its identifier is the transcript position of the tool message that carries it.
  datatype Action = Action(id: nat, tool: string, params: string)

  // One call of the model: the budget check refuses it, it fails, ends without a result, or answers.
  datatype Reply = OverBudget | Failure | NoResult | Final(text: string, calls: seq<ToolCall>)

  datatype ToolResult = ToolResult(ok: bool, action: Option<string>)

  // Everything outside the loop: the model's n-th reply, the result of the call
  // answered at a transcript position, and which tools propose writes.
  datatype Backend = Backend(reply: nat -> Reply, run: (nat, ToolCall) -> ToolResult, mutating: string -> bool)

  datatype State = State(messages: seq<Message>, trace: seq<Trace>, actions: seq<Action>,
                         steps: nat, error: bool, overBudget: bool)

  // ---- nodes ----

  function AssistantStep(s: State, reply: Reply): State {
    match reply
    case OverBudget => s.(overBudget := true)
    case Failure => s.(error := true)
    case NoResult => s.(error := true)
    case Final(text, calls) => s.(messages := s.messages + [Assistant(text, calls)], steps := s.steps + 1)
  }

  predicate GoesToTools(s: State, maxSteps: nat) {
    && !s.error && !s.overBudget && s.steps < maxSteps
    && |s.messages| > 0 && s.messages[|s.messages| - 1].Assistant? && |s.messages[|s.messages| - 1].calls| > 0
  }

  // The tool message written at a position in answer to a call, and the action it proposes.
  function Answer(b: Backend, at: nat, call: ToolCall): Message {
    Tool(call.id, call.name, b.run(at, call).ok, if Proposes(b, at, call) then Some(at) else None)
  }

  // The message answers the call: its identifiers and name, the result's status, and the
  // pending action's identifier exactly when a mutating tool succeeded with a proposal.
  ghost predicate IsAnswer(b: Backend, m: Message, at: nat, call: ToolCall) {
    && m.Tool? && m.callId == call.id && m.name == call.name && m.ok == b.run(at, call).ok
    && (m.actionId.Some? <==> b.run(at, call).ok && b.mutating(call.name) && b.run(at, call).action.Some?)
    && (m.actionId.Some? ==> m.actionId.value == at)
  }

  predicate Proposes(b: Backend, at: nat, call: ToolCall) {
    b.run(at, call).ok && b.mutating(call.name) && b.run(at, call).action.Some?
  }

  function Proposed(b: Backend, at: nat, call: ToolCall): seq<Action> {
    if Proposes(b, at, call) then [Action(at, call.name, b.run(at, call).action.value)] else []
  }

  function Noted(b: Backend, at: nat, call: ToolCall): Trace {
    Trace(call.name, b.run(at, call).ok, b.mutating(call.name))
  }

  /** The state after answering the given calls in order. */
  function Answered(b: Backend, s: State, calls: seq<ToolCall>): State {
    if |calls| == 0 then s
    else
      var t := Answered(b, s, calls[..|calls| - 1]);
      var call := calls[|calls| - 1];
      var at := |t.messages|;
      t.(messages := t.messages + [Answer(b, at, call)],
         trace := t.trace + [Noted(b, at, call)],
         actions := t.actions + Proposed(b, at, call))
  }

  function ToolsStep(b: Backend, s: State): State {
    if |s.messages| == 0 || !s.messages[|s.messages| - 1].Assistant? then s
    else Answered(b, s, s.messages[|s.messages| - 1].calls)
  }

  lemma AnsweredNext(b: Backend, s: State, calls: seq<ToolCall>, k: nat)
    requires k < |calls|
    ensures var t, at := Answered(b, s, calls[..k]), |Answered(b, s, calls[..k]).messages|;
      Answered(b, s, calls[..k + 1]) ==
        t.(messages := t.messages + [Answer(b, at, calls[k])],
           trace := t.trace + [Noted(b, at, calls[k])],
           actions := t.actions + Proposed(b, at, calls[k]))
  {
    assert calls[..k + 1][..k] == calls[..k];
  }

  method ToolsNode(b: Backend, s: State) returns (t: State)
    ensures t == ToolsStep(b, s)
  {
    if |s.messages| == 0 || !s.messages[|s.messages| - 1].Assistant? {
      return s;
    }
    var messages, trace, actions := s.messages, s.trace, s.actions;
    var calls := s.messages[|s.messages| - 1].calls;
    assert Answered(b, s, calls[..0]) == s;
    for k := 0 to |calls|
      invariant s.(messages := messages, trace := trace, actions := actions) == Answered(b, s, calls[..k])
    {
      var call := calls[k];
      var at := |messages|;
      AnsweredNext(b, s, calls, k);
      var result := b.run(at, call);
      var mutating := b.mutating(call.name);
      trace := trace + [Trace(call.name, result.ok, mutating)];
      var actionId: Option<nat> := None;
      if result.ok && mutating && result.action.Some? {
        actions := actions + [Action(at, call.name, result.action.value)];
        actionId := Some(at);
      } else {
        assert actions == actions + [];
      }
      messages := messages + [Tool(call.id, call.name, result.ok, actionId)];
    }
    assert calls[..|calls|] == calls;
    t := s.(messages := messages, trace := trace, actions := actions);
  }

  // ---- the turn ----

  // The final state, and how many times the model was consulted or refused.
  datatype Turn = Turn(state: State, consulted: nat)

  function Loop(b: Backend, s: State, maxSteps: nat, n: nat): Turn
    decreases if s.steps < maxSteps then maxSteps - s.steps else 0
  {
    var t := AssistantStep(s, b.reply(n));
    if GoesToTools(t, maxSteps) then
      ToolsKeepSteps(b, t);
      Loop(b, ToolsStep(b, t), maxSteps, n + 1)
    else Turn(t, n + 1)
  }

  // Earlier messages without text are dropped.
  function Kept(history: seq<Message>): seq<Message> {
    if |history| == 0 then []
    else
      var m := history[|history| - 1];
      Kept(history[..|history| - 1]) + if !m.Tool? && m.content == "" then [] else [m]
  }

  function Opening(history: seq<Message>, userMessage: string): State {
    State(Kept(history) + [User(userMessage)], [], [], 0, false, false)
  }

  function StepLimit(configured: int): (m: nat)
    ensures m >= 1 && (configured >= 1 ==> m == configured) && (configured < 1 ==> m == 1)
  {
    if configured > 1 then configured else 1
  }

  method Run(b: Backend, history: seq<Message>, userMessage: string, configured: int) returns (final: State, consulted: nat)
    ensures Turn(final, consulted) == Loop(b, Opening(history, userMessage), StepLimit(configured), 0)
  {
    var maxSteps := StepLimit(configured);
    var s := Opening(history, userMessage);
    var n := 0;
    ghost var whole := Loop(b, s, maxSteps, 0);
    while true
      invariant Loop(b, s, maxSteps, n) == whole
      decreases if s.steps < maxSteps then maxSteps - s.steps else 0
    {
      var t := AssistantStep(s, b.reply(n));
      n := n + 1;
      if !GoesToTools(t, maxSteps) {
        return t, n;
      }
      ToolsKeepSteps(b, t);
      s := ToolsNode(b, t);
    }
  }

  lemma {:induction false} AnsweredKeeps(b: Backend, s: State, calls: seq<ToolCall>)
    ensures var t := Answered(b, s, calls);
      && t.steps == s.steps && t.error == s.error && t.overBudget == s.overBudget
      && |t.messages| == |s.messages| + |calls| && |t.trace| == |s.trace| + |calls|
      && s.messages <= t.messages
      && forall j :: 0 <= j < |calls| ==>
           IsAnswer(b, t.messages[|s.messages| + j], |s.messages| + j, calls[j])
  {
    if |calls| > 0 {
      var n := |calls| - 1;
      AnswerIs(b, |Answered(b, s, calls[..n]).messages|, calls[n]);
      hide IsAnswer, Answer;
      AnsweredKeeps(b, s, calls[..n]);
    }
  }

  lemma AnswerIs(b: Backend, at: nat, call: ToolCall)
    ensures IsAnswer(b, Answer(b, at, call), at, call)
  {
  }

  lemma ToolsKeepSteps(b: Backend, s: State)
    ensures ToolsStep(b, s).steps == s.steps
  {
    if |s.messages| > 0 && s.messages[|s.messages| - 1].Assistant? {
      AnsweredKeeps(b, s, s.messages[|s.messages| - 1].calls);
    }
  }

  lemma ToolsExtend(b: Backend, s: State)
    ensures s.messages <= ToolsStep(b, s).messages
  {
    if |s.messages| > 0 && s.messages[|s.messages| - 1].Assistant? {
      AnsweredKeeps(b, s, s.messages[|s.messages| - 1].calls);
    }
  }

  // ---- bounded work ----

  lemma {:induction false} LoopIsBounded(b: Backend, s: State, maxSteps: nat, n: nat)
    requires s.steps < maxSteps
    ensures Loop(b, s, maxSteps, n).consulted <= n + (maxSteps - s.steps)
    ensures Loop(b, s, maxSteps, n).state.steps <= maxSteps
    decreases maxSteps - s.steps
  {
    var t := AssistantStep(s, b.reply(n));
    if GoesToTools(t, maxSteps) {
      ToolsKeepSteps(b, t);
      LoopIsBounded(b, ToolsStep(b, t), maxSteps, n + 1);
    }
  }

  /** Whatever the model and the tools do, a turn consults the model at most
      max_steps times and then stops. */
  lemma {:induction false} AtMostMaxStepsCalls(b: Backend, history: seq<Message>, userMessage: string, configured: int)
    ensures var turn := Loop(b, Opening(history, userMessage), StepLimit(configured), 0);
      1 <= turn.consulted <= StepLimit(configured) && turn.state.steps <= turn.consulted
  {
    var s := Opening(history, userMessage);
    LoopIsBounded(b, s, StepLimit(configured), 0);
    StepsBelowConsulted(b, s, StepLimit(configured), 0);
  }

  lemma {:induction false} StepsBelowConsulted(b: Backend, s: State, maxSteps: nat, n: nat)
    requires s.steps == n
    ensures n < Loop(b, s, maxSteps, n).consulted
    ensures Loop(b, s, maxSteps, n).state.steps <= Loop(b, s, maxSteps, n).consulted
    decreases if s.steps < maxSteps then maxSteps - s.steps else 0
  {
    hide ToolsStep;
    var t := AssistantStep(s, b.reply(n));
    if GoesToTools(t, maxSteps) {
      ToolsKeepSteps(b, t);
      StepsBelowConsulted(b, ToolsStep(b, t), maxSteps, n + 1);
    }
  }

  lemma {:induction false} LoopEnds(b: Backend, s: State, maxSteps: nat, n: nat)
    ensures !GoesToTools(Loop(b, s, maxSteps, n).state, maxSteps)
    decreases if s.steps < maxSteps then maxSteps - s.steps else 0
  {
    var t := AssistantStep(s, b.reply(n));
    ToolsKeepSteps(b, t);
    hide ToolsStep;
    if GoesToTools(t, maxSteps) { LoopEnds(b, ToolsStep(b, t), maxSteps, n + 1); }
  }

  /** A turn ends only on a failed or refused model call, at the step limit, or with a last
      message that asks for no tool. */
  lemma TurnEndsProperly(b: Backend, history: seq<Message>, userMessage: string, configured: int)
    ensures var z := Loop(b, Opening(history, userMessage), StepLimit(configured), 0).state;
      z.error || z.overBudget || z.steps >= StepLimit(configured)
      || (|z.messages| > 0 ==> var last := z.messages[|z.messages| - 1]; last.Assistant? ==> last.calls == [])
  {
    LoopEnds(b, Opening(history, userMessage), StepLimit(configured), 0);
  }

  // ---- the transcript ----

  // ms[from..] is a sequence of complete rounds: an assistant message with calls,
  // then one tool message per call, each the answer to that call at its position.
  ghost predicate Rounds(b: Backend, ms: seq<Message>, from: nat)
    decreases |ms| - from
  {
    from == |ms| ||
    (from < |ms| && ms[from].Assistant? &&
     (var calls := ms[from].calls;
      && |calls| > 0 && from + 1 + |calls| <= |ms|
      && (forall j :: 0 <= j < |calls| ==> IsAnswer(b, ms[from + 1 + j], from + 1 + j, calls[j]))
      && Rounds(b, ms, from + 1 + |calls|)))
  }

  // Complete rounds, possibly followed by one last assistant message nobody answered.
  ghost predicate WellFormed(b: Backend, ms: seq<Message>, from: nat) {
    Rounds(b, ms, from) ||
    (from < |ms| && ms[|ms| - 1].Assistant? && Rounds(b, ms[..|ms| - 1], from))
  }

  lemma {:induction false} RoundsExtend(b: Backend, ms: seq<Message>, from: nat, more: seq<Message>)
    requires Rounds(b, ms, from) && from <= |ms| && Rounds(b, ms + more, |ms|)
    ensures Rounds(b, ms + more, from)
    decreases |ms| - from
  {
    if from < |ms| {
      var calls := ms[from].calls;
      assert (ms + more)[from] == ms[from];
      forall j | 0 <= j < |calls| ensures IsAnswer(b, (ms + more)[from + 1 + j], from + 1 + j, calls[j]) {
        assert (ms + more)[from + 1 + j] == ms[from + 1 + j];
      }
      RoundsExtend(b, ms, from + 1 + |calls|, more);
    }
  }

  // Answering the pending assistant message completes its round.
  lemma ToolsCompleteRound(b: Backend, s: State, from: nat)
    requires |s.messages| > from && s.messages[|s.messages| - 1].Assistant?
    requires |s.messages[|s.messages| - 1].calls| > 0 && Rounds(b, s.messages[..|s.messages| - 1], from)
    ensures Rounds(b, ToolsStep(b, s).messages, from)
  {
    hide Answered, Answer, IsAnswer;
    var n := |s.messages| - 1;
    var calls := s.messages[n].calls;
    AnsweredKeeps(b, s, calls);
    var t := ToolsStep(b, s).messages;
    var ms := s.messages[..n];
    assert t == ms + t[n..];
    assert t[n] == s.messages[n];
    assert Rounds(b, t, n + 1 + |calls|);
    forall j | 0 <= j < |calls| ensures IsAnswer(b, t[n + 1 + j], n + 1 + j, calls[j]) {
      assert IsAnswer(b, t[|s.messages| + j], |s.messages| + j, calls[j]);
    }
    RoundsExtend(b, ms, from, t[n..]);
  }

  // One unfolding of the loop.
  lemma LoopUnfolds(b: Backend, s: State, maxSteps: nat, n: nat)
    ensures var t := AssistantStep(s, b.reply(n));
      && (t.messages == s.messages || (|t.messages| == |s.messages| + 1 && t.messages[..|s.messages|] == s.messages
                                       && t.messages[|s.messages|].Assistant?))
      && if GoesToTools(t, maxSteps) then
           && b.reply(n).Final? && s.steps < maxSteps && t.steps == ToolsStep(b, t).steps == s.steps + 1
           && |t.messages| == |s.messages| + 1 && |t.messages[|s.messages|].calls| > 0
           && Loop(b, s, maxSteps, n) == Loop(b, ToolsStep(b, t), maxSteps, n + 1)
         else Loop(b, s, maxSteps, n) == Turn(t, n + 1)
  {
    ToolsKeepSteps(b, AssistantStep(s, b.reply(n)));
    hide ToolsStep;
  }

  lemma {:induction false} LoopKeepsMessages(b: Backend, s: State, maxSteps: nat, n: nat)
    ensures s.messages <= Loop(b, s, maxSteps, n).state.messages
    decreases if s.steps < maxSteps then maxSteps - s.steps else 0
  {
    hide Loop, AssistantStep, GoesToTools, ToolsStep;
    LoopUnfolds(b, s, maxSteps, n);
    var t := AssistantStep(s, b.reply(n));
    if GoesToTools(t, maxSteps) {
      ToolsExtend(b, t);
      LoopKeepsMessages(b, ToolsStep(b, t), maxSteps, n + 1);
    }
  }

  lemma {:induction false} LoopTranscript(b: Backend, s: State, maxSteps: nat, n: nat, from: nat)
    requires from <= |s.messages| && Rounds(b, s.messages, from)
    ensures WellFormed(b, Loop(b, s, maxSteps, n).state.messages, from)
    decreases if s.steps < maxSteps then maxSteps - s.steps else 0
  {
    hide Loop, AssistantStep, GoesToTools, ToolsStep, Rounds;
    LoopUnfolds(b, s, maxSteps, n);
    var t := AssistantStep(s, b.reply(n));
    if GoesToTools(t, maxSteps) {
      ToolsCompleteRound(b, t, from);
      ToolsExtend(b, t);
      LoopTranscript(b, ToolsStep(b, t), maxSteps, n + 1, from);
    }
  }

  /** After the user's message the transcript is a run of complete rounds: every
      assistant message that asked for tools is followed by exactly one tool message
      per call, with the same identifiers and names in order. Only the very last
      message may be an assistant message without answers. */
  lemma {:induction false} TranscriptIsWellFormed(b: Backend, history: seq<Message>, userMessage: string, configured: int)
    ensures var ms := Loop(b, Opening(history, userMessage), StepLimit(configured), 0).state.messages;
      && |ms| > |Kept(history)| && ms[..|Kept(history)| + 1] == Kept(history) + [User(userMessage)]
      && WellFormed(b, ms, |Kept(history)| + 1)
  {
    var s := Opening(history, userMessage);
    LoopKeepsMessages(b, s, StepLimit(configured), 0);
    assert Rounds(b, s.messages, |s.messages|);
    LoopTranscript(b, s, StepLimit(configured), 0, |s.messages|);
  }

  // ---- pending actions ----

  function ActionIds(actions: seq<Action>): (r: seq<nat>)
    ensures |r| == |actions|
  {
    seq(|actions|, i requires 0 <= i < |actions| => actions[i].id)
  }

  // Positions of the tool messages that carry an action, in order.
  function Carriers(ms: seq<Message>): seq<nat> {
    if |ms| == 0 then []
    else
      var m := ms[|ms| - 1];
      Carriers(ms[..|ms| - 1]) + if m.Tool? && m.actionId.Some? then [|ms| - 1] else []
  }

  lemma CarriersPush(ms: seq<Message>, m: Message)
    ensures Carriers(ms + [m]) == Carriers(ms) + if m.Tool? && m.actionId.Some? then [|ms|] else []
  {
    assert (ms + [m])[..|ms|] == ms;
  }

  lemma ActionIdsConcat(a: seq<Action>, b: seq<Action>)
    ensures ActionIds(a + b) == ActionIds(a) + ActionIds(b)
  {
  }

  lemma {:induction false} AnsweredActions(b: Backend, s: State, calls: seq<ToolCall>)
    requires ActionIds(s.actions) == Carriers(s.messages)
    ensures ActionIds(Answered(b, s, calls).actions) == Carriers(Answered(b, s, calls).messages)
  {
    if |calls| > 0 {
      var t := Answered(b, s, calls[..|calls| - 1]);
      var call := calls[|calls| - 1];
      var at := |t.messages|;
      AnsweredActions(b, s, calls[..|calls| - 1]);
      CarriersPush(t.messages, Answer(b, at, call));
      ActionIdsConcat(t.actions, Proposed(b, at, call));
      assert ActionIds(Proposed(b, at, call)) == if Proposes(b, at, call) then [at] else [];
      hide ActionIds, Carriers;
    }
  }

  lemma {:induction false} LoopActions(b: Backend, s: State, maxSteps: nat, n: nat)
    requires ActionIds(s.actions) == Carriers(s.messages)
    ensures var z := Loop(b, s, maxSteps, n).state; ActionIds(z.actions) == Carriers(z.messages)
    decreases if s.steps < maxSteps then maxSteps - s.steps else 0
  {
    var t := AssistantStep(s, b.reply(n));
    assert b.reply(n).Final? ==> t.messages[..|s.messages|] == s.messages;
    assert Carriers(t.messages) == Carriers(s.messages);
    hide Answered, Carriers, ActionIds;
    if GoesToTools(t, maxSteps) {
      ToolsKeepSteps(b, t);
      AnsweredActions(b, t, t.messages[|t.messages| - 1].calls);
      LoopActions(b, ToolsStep(b, t), maxSteps, n + 1);
    }
  }

  ghost predicate PlainHistory(history: seq<Message>) {
    forall i :: 0 <= i < |history| ==> !history[i].Tool?
  }

  /** The kept history drops exactly the user and assistant messages without text, in order. */
  lemma KeptDropsBlanks(history: seq<Message>, m: Message)
    ensures Kept([]) == []
    ensures Kept(history + [m]) == if m.Tool? || m.content != "" then Kept(history) + [m] else Kept(history)
  {
    assert (history + [m])[..|history|] == history;
    assert Kept(history) + [] == Kept(history);
  }

  /** The assistant messages of a transcript. */
  function Assistants(ms: seq<Message>): seq<Message> {
    if |ms| == 0 then []
    else Assistants(ms[..|ms| - 1]) + if ms[|ms| - 1].Assistant? then [ms[|ms| - 1]] else []
  }

  // The model's replies from the n-th on, as messages.
  function Recorded(b: Backend, n: nat, count: nat): seq<Message>
    decreases count
  {
    if count == 0 then []
    else match b.reply(n)
         case Final(text, calls) => [Assistant(text, calls)] + Recorded(b, n + 1, count - 1)
         case _ => []
  }

  lemma {:induction false} AnsweringAddsNoAssistant(b: Backend, s: State, calls: seq<ToolCall>)
    ensures Assistants(Answered(b, s, calls).messages) == Assistants(s.messages)
  {
    if |calls| > 0 {
      var t := Answered(b, s, calls[..|calls| - 1]);
      AnsweringAddsNoAssistant(b, s, calls[..|calls| - 1]);
      assert (t.messages + [Answer(b, |t.messages|, calls[|calls| - 1])])[..|t.messages|] == t.messages;
    }
  }

  lemma ToolsAddNoAssistant(b: Backend, s: State)
    ensures Assistants(ToolsStep(b, s).messages) == Assistants(s.messages)
  {
    if |s.messages| > 0 && s.messages[|s.messages| - 1].Assistant? {
      AnsweringAddsNoAssistant(b, s, s.messages[|s.messages| - 1].calls);
    }
  }

  lemma AssistantRecords(s: State, reply: Reply)
    ensures var t := AssistantStep(s, reply);
      if reply.Final? then t.steps == s.steps + 1 && Assistants(t.messages) == Assistants(s.messages) + [Assistant(reply.text, reply.calls)]
      else t.steps == s.steps && Assistants(t.messages) == Assistants(s.messages)
  {
    if reply.Final? { assert AssistantStep(s, reply).messages[..|s.messages|] == s.messages; }
  }

  lemma {:induction false} LoopRecords(b: Backend, s: State, maxSteps: nat, n: nat)
    ensures var z := Loop(b, s, maxSteps, n).state;
      && z.steps >= s.steps && |Recorded(b, n, z.steps - s.steps)| == z.steps - s.steps
      && Assistants(z.messages) == Assistants(s.messages) + Recorded(b, n, z.steps - s.steps)
    decreases if s.steps < maxSteps then maxSteps - s.steps else 0
  {
    hide Loop, AssistantStep, GoesToTools, ToolsStep, Assistants, Recorded;
    LoopUnfolds(b, s, maxSteps, n);
    var t := AssistantStep(s, b.reply(n));
    AssistantRecords(s, b.reply(n));
    FirstRecorded(b, n);
    if GoesToTools(t, maxSteps) {
      ToolsAddNoAssistant(b, t);
      LoopRecords(b, ToolsStep(b, t), maxSteps, n + 1);
      NextRecorded(b, n, t, Loop(b, s, maxSteps, n).state, s);
    } else if !b.reply(n).Final? {
      assert Assistants(s.messages) + [] == Assistants(s.messages);
    }
  }

  lemma FirstRecorded(b: Backend, n: nat)
    ensures Recorded(b, n, 0) == []
    ensures b.reply(n).Final? ==> Recorded(b, n, 1) == [Assistant(b.reply(n).text, b.reply(n).calls)]
  {
    assert Recorded(b, n + 1, 0) == [];
  }

  lemma NextRecorded(b: Backend, n: nat, t: State, z: State, s: State)
    requires b.reply(n).Final? && t.steps == s.steps + 1 && z.steps >= t.steps
    requires Assistants(t.messages) == Assistants(s.messages) + [Assistant(b.reply(n).text, b.reply(n).calls)]
    requires Assistants(z.messages) == Assistants(t.messages) + Recorded(b, n + 1, z.steps - t.steps)
    requires |Recorded(b, n + 1, z.steps - t.steps)| == z.steps - t.steps
    ensures |Recorded(b, n, z.steps - s.steps)| == z.steps - s.steps
    ensures Assistants(z.messages) == Assistants(s.messages) + Recorded(b, n, z.steps - s.steps)
  {
    hide Assistants;
  }

  /** The assistant messages a turn adds are the model's replies, in order and complete. */
  lemma {:induction false} RepliesAreRecorded(b: Backend, history: seq<Message>, userMessage: string, configured: int)
    ensures var z := Loop(b, Opening(history, userMessage), StepLimit(configured), 0).state;
      && Assistants(z.messages) == Assistants(Kept(history)) + Recorded(b, 0, z.steps)
      && |Recorded(b, 0, z.steps)| == z.steps
  {
    assert (Kept(history) + [User(userMessage)])[..|Kept(history)|] == Kept(history);
    assert Assistants(Kept(history) + [User(userMessage)]) == Assistants(Kept(history));
    hide Assistants, Loop, Recorded, Kept;
    LoopRecords(b, Opening(history, userMessage), StepLimit(configured), 0);
  }

  lemma {:induction false} KeptPlain(history: seq<Message>)
    requires PlainHistory(history)
    ensures PlainHistory(Kept(history))
  {
    if |history| > 0 { KeptPlain(history[..|history| - 1]); }
  }

  lemma {:induction false} NoCarriers(ms: seq<Message>)
    requires PlainHistory(ms)
    ensures Carriers(ms) == []
  {
    if |ms| > 0 { NoCarriers(ms[..|ms| - 1]); }
  }

  /** The pending actions of a turn are, one to one and in order, the tool messages
      that report a proposal: results of mutating tools that succeeded and carried one. */
  lemma ActionsMatchProposals(b: Backend, history: seq<Message>, userMessage: string, configured: int)
    requires PlainHistory(history)
    ensures var z := Loop(b, Opening(history, userMessage), StepLimit(configured), 0).state;
      ActionIds(z.actions) == Carriers(z.messages)
  {
    KeptPlain(history);
    NoCarriers(Kept(history) + [User(userMessage)]);
    LoopActions(b, Opening(history, userMessage), StepLimit(configured), 0);
  }

  /** The actions proposed by n calls answered from a position on. */
  function ProposedBy(b: Backend, at: nat, calls: seq<ToolCall>): seq<Action> {
    if |calls| == 0 then []
    else
      var n := |calls| - 1;
      var r := b.run(at + n, calls[n]);
      ProposedBy(b, at, calls[..n])
      + if r.ok && b.mutating(calls[n].name) && r.action.Some? then [Action(at + n, calls[n].name, r.action.value)] else []
  }

  /** The actions proposed in the complete rounds of a transcript. */
  function RoundActions(b: Backend, ms: seq<Message>, from: nat): seq<Action>
    decreases |ms| - from
  {
    if from < |ms| && ms[from].Assistant? && from + 1 + |ms[from].calls| <= |ms| then
      var calls := ms[from].calls;
      ProposedBy(b, from + 1, calls) + RoundActions(b, ms, from + 1 + |calls|)
    else []
  }

  lemma {:induction false} AnsweredProposes(b: Backend, s: State, calls: seq<ToolCall>)
    ensures Answered(b, s, calls).actions == s.actions + ProposedBy(b, |s.messages|, calls)
  {
    if |calls| > 0 {
      AnsweredProposes(b, s, calls[..|calls| - 1]);
      AnsweredKeeps(b, s, calls[..|calls| - 1]);
    }
  }

  lemma {:induction false} RoundActionsExtend(b: Backend, ms: seq<Message>, from: nat, more: seq<Message>)
    requires from <= |ms| && Rounds(b, ms, from)
    ensures RoundActions(b, ms + more, from) == RoundActions(b, ms, from) + RoundActions(b, ms + more, |ms|)
    decreases |ms| - from
  {
    hide IsAnswer, ProposedBy;
    if from < |ms| {
      assert (ms + more)[from] == ms[from];
      RoundActionsExtend(b, ms, from + 1 + |ms[from].calls|, more);
    }
  }

  // A last assistant message adds no action before its calls are answered.
  lemma AssistantProposesNothing(b: Backend, s: State, reply: Reply, from: nat)
    requires from <= |s.messages| && Rounds(b, s.messages, from) && s.actions == RoundActions(b, s.messages, from)
    ensures var t := AssistantStep(s, reply); t.actions == RoundActions(b, t.messages, from)
  {
    if reply.Final? {
      var more := [Assistant(reply.text, reply.calls)];
      var t := s.messages + more;
      RoundActionsExtend(b, s.messages, from, more);
      if reply.calls == [] { assert RoundActions(b, t, |s.messages| + 1) == []; }
      assert RoundActions(b, t, |s.messages|) == [];
    }
  }

  lemma ToolsPropose(b: Backend, s: State, t: State, from: nat)
    requires from <= |s.messages| && Rounds(b, s.messages, from) && s.actions == RoundActions(b, s.messages, from)
    requires |t.messages| == |s.messages| + 1 && t.messages[..|s.messages|] == s.messages && t.actions == s.actions
    requires t.messages[|s.messages|].Assistant?
    ensures ToolsStep(b, t).actions == RoundActions(b, ToolsStep(b, t).messages, from)
  {
    hide Answered, Answer, IsAnswer, ProposedBy;
    var n := |s.messages|;
    var calls := t.messages[n].calls;
    var u := ToolsStep(b, t);
    AnsweredKeeps(b, t, calls);
    AnsweredProposes(b, t, calls);
    assert u.messages[n] == t.messages[n];
    assert u.messages == s.messages + u.messages[n..];
    RoundActionsExtend(b, s.messages, from, u.messages[n..]);
    assert RoundActions(b, u.messages, n + 1 + |calls|) == [];
    assert RoundActions(b, u.messages, n) == ProposedBy(b, n + 1, calls);
  }

  lemma {:induction false} LoopProposals(b: Backend, s: State, maxSteps: nat, n: nat, from: nat)
    requires from <= |s.messages| && Rounds(b, s.messages, from) && s.actions == RoundActions(b, s.messages, from)
    ensures var z := Loop(b, s, maxSteps, n).state; z.actions == RoundActions(b, z.messages, from)
    decreases if s.steps < maxSteps then maxSteps - s.steps else 0
  {
    hide ToolsStep, Rounds, RoundActions;
    var t := AssistantStep(s, b.reply(n));
    AssistantProposesNothing(b, s, b.reply(n), from);
    if GoesToTools(t, maxSteps) {
      ToolsCompleteRound(b, t, from);
      ToolsPropose(b, s, t, from);
      ToolsKeepSteps(b, t);
      ToolsExtend(b, t);
      LoopProposals(b, ToolsStep(b, t), maxSteps, n + 1, from);
    }
  }

  /** The pending actions of a turn are exactly the proposals of its answered calls, in
      order: each names the tool called and holds the parameters its result proposed. */
  lemma ActionsAreProposals(b: Backend, history: seq<Message>, userMessage: string, configured: int)
    ensures var z := Loop(b, Opening(history, userMessage), StepLimit(configured), 0).state;
      z.actions == RoundActions(b, z.messages, |Kept(history)| + 1)
  {
    LoopProposals(b, Opening(history, userMessage), StepLimit(configured), 0, |Kept(history)| + 1);
  }

  /** What the tool messages of a transcript say was run. */
  function ToolsRun(b: Backend, ms: seq<Message>): seq<Trace> {
    if |ms| == 0 then []
    else
      var m := ms[|ms| - 1];
      ToolsRun(b, ms[..|ms| - 1]) + if m.Tool? then [Trace(m.name, m.ok, b.mutating(m.name))] else []
  }

  lemma {:induction false} AnsweredTraced(b: Backend, s: State, calls: seq<ToolCall>)
    requires s.trace == ToolsRun(b, s.messages)
    ensures Answered(b, s, calls).trace == ToolsRun(b, Answered(b, s, calls).messages)
  {
    if |calls| > 0 {
      var t := Answered(b, s, calls[..|calls| - 1]);
      AnsweredTraced(b, s, calls[..|calls| - 1]);
      assert (t.messages + [Answer(b, |t.messages|, calls[|calls| - 1])])[..|t.messages|] == t.messages;
    }
  }

  lemma {:induction false} LoopTraced(b: Backend, s: State, maxSteps: nat, n: nat)
    requires s.trace == ToolsRun(b, s.messages)
    ensures var z := Loop(b, s, maxSteps, n).state; z.trace == ToolsRun(b, z.messages)
    decreases if s.steps < maxSteps then maxSteps - s.steps else 0
  {
    var t := AssistantStep(s, b.reply(n));
    assert b.reply(n).Final? ==> t.messages[..|s.messages|] == s.messages;
    assert ToolsRun(b, t.messages) == ToolsRun(b, s.messages);
    hide Answered, ToolsRun;
    if GoesToTools(t, maxSteps) {
      ToolsKeepSteps(b, t);
      AnsweredTraced(b, t, t.messages[|t.messages| - 1].calls);
      LoopTraced(b, ToolsStep(b, t), maxSteps, n + 1);
    }
  }

  lemma {:induction false} NothingRun(b: Backend, ms: seq<Message>)
    requires PlainHistory(ms)
    ensures ToolsRun(b, ms) == []
  {
    if |ms| > 0 { NothingRun(b, ms[..|ms| - 1]); }
  }

  /** The tool trace of a turn lists its tool messages in order, each with its name,
      whether it succeeded and whether its tool writes. */
  lemma TraceMatchesTools(b: Backend, history: seq<Message>, userMessage: string, configured: int)
    requires PlainHistory(history)
    ensures var z := Loop(b, Opening(history, userMessage), StepLimit(configured), 0).state; z.trace == ToolsRun(b, z.messages)
  {
    KeptPlain(history);
    NothingRun(b, Kept(history) + [User(userMessage)]);
    LoopTraced(b, Opening(history, userMessage), StepLimit(configured), 0);
  }

  lemma {:induction false} CarriersAscend(ms: seq<Message>)
    ensures forall i :: 0 <= i < |Carriers(ms)| ==> Carriers(ms)[i] < |ms| && ms[Carriers(ms)[i]].Tool?
    ensures forall i, j :: 0 <= i < j < |Carriers(ms)| ==> Carriers(ms)[i] < Carriers(ms)[j]
  {
    if |ms| > 0 { CarriersAscend(ms[..|ms| - 1]); }
  }

  /** No two pending actions of a turn share a tool message. */
  lemma ActionsAreDistinct(b: Backend, history: seq<Message>, userMessage: string, configured: int)
    requires PlainHistory(history)
    ensures var z := Loop(b, Opening(history, userMessage), StepLimit(configured), 0).state;
      forall i, j :: 0 <= i < j < |z.actions| ==> z.actions[i].id != z.actions[j].id
  {
    ActionsMatchProposals(b, history, userMessage, configured);
    var z := Loop(b, Opening(history, userMessage), StepLimit(configured), 0).state;
    CarriersAscend(z.messages);
    forall i, j | 0 <= i < j < |z.actions| ensures z.actions[i].id != z.actions[j].id {
      assert ActionIds(z.actions)[i] < ActionIds(z.actions)[j];
    }
  }

  // ---- the reply text ----

  function TextOf(m: Message): seq<string> {
    if m.Assistant? && m.content != "" then [m.content] else []
  }

  /** The texts of all assistant messages, blank ones dropped. */
  function Texts(ms: seq<Message>): (r: seq<string>)
    ensures forall i :: 0 <= i < |r| ==> |r[i]| > 0
  {
    if |ms| == 0 then []
    else
      var m := ms[|ms| - 1];
      Texts(ms[..|ms| - 1]) + TextOf(m)
  }

  function Joined(texts: seq<string>): string {
    if |texts| == 0 then ""
    else if |texts| == 1 then texts[0]
    else Joined(texts[..|texts| - 1]) + " " + texts[|texts| - 1]
  }

  // The reply: assembled text, or one of the three canned notes.
  datatype Content = Text(text: string) | ErrorNote | BudgetNote | NoAnswerNote

  function Assemble(s: State): (c: Content)
    ensures c.Text? <==> Texts(s.messages) != []
    ensures c.Text? ==> c.text == Joined(Texts(s.messages))
    ensures c.ErrorNote? <==> Texts(s.messages) == [] && s.error
    ensures c.BudgetNote? <==> Texts(s.messages) == [] && !s.error && s.overBudget
  {
    var content := Joined(Texts(s.messages));
    JoinedLength([], Texts(s.messages));
    assert [] + Texts(s.messages) == Texts(s.messages);
    if content != "" then Text(content)
    else if s.error then ErrorNote
    else if s.overBudget then BudgetNote
    else NoAnswerNote
  }

  lemma {:induction false} TextsConcat(a: seq<Message>, b: seq<Message>)
    ensures Texts(a + b) == Texts(a) + Texts(b)
  {
    if |b| == 0 {
      assert a + b == a;
    } else {
      assert (a + b)[..|a| + |b| - 1] == a + b[..|b| - 1];
      TextsConcat(a, b[..|b| - 1]);
    }
  }

  lemma {:induction false} JoinedLength(a: seq<string>, b: seq<string>)
    requires forall i :: 0 <= i < |a + b| ==> |(a + b)[i]| > 0
    ensures |a| > 0 ==> |Joined(a + b)| > |Joined(b)|
    ensures |a| + |b| > 0 ==> |Joined(a + b)| > 0
  {
    if |b| == 0 {
      assert a + b == a;
      if |a| > 1 { assert a[|a| - 1] == (a + b)[|a| - 1]; }
      if |a| == 1 { assert a[0] == (a + b)[0]; }
    } else {
      var n := |b| - 1;
      assert (a + b)[..|a| + n] == a + b[..n];
      forall i | 0 <= i < |a + b[..n]| ensures |(a + b[..n])[i]| > 0 { assert (a + b[..n])[i] == (a + b)[i]; }
      assert (a + b)[|a| + n] == b[n];
      JoinedLength(a, b[..n]);
    }
  }

  lemma TextsPush(ms: seq<Message>, m: Message)
    ensures Texts(ms + [m]) == Texts(ms) + TextOf(m)
  {
    assert (ms + [m])[..|ms|] == ms;
  }

  lemma {:induction false} KeptTexts(history: seq<Message>)
    ensures Texts(Kept(history)) == Texts(history)
  {
    if |history| == 0 {
      assert Kept(history) == [] == history;
    } else {
      hide Texts, Kept;
      var n := |history| - 1;
      KeptTexts(history[..n]);
      KeptDropsBlanks(history[..n], history[n]);
      assert history == history[..n] + [history[n]];
      TextsPush(history[..n], history[n]);
      TextsPush(Kept(history[..n]), history[n]);
    }
  }

  /** The reply of a turn joins every assistant text of its transcript, earlier turns
      included. It is what this turn alone would reply exactly when the history holds no
      assistant text; otherwise it is never one of the notes, even after a refusal. */
  lemma {:induction false} ReplyRepeatsHistory(b: Backend, history: seq<Message>, userMessage: string, configured: int)
    ensures var z := Loop(b, Opening(history, userMessage), StepLimit(configured), 0).state;
      && |Kept(history)| <= |z.messages|
      && (Assemble(z) == Assemble(z.(messages := z.messages[|Kept(history)|..])) <==> Texts(history) == [])
      && (Texts(history) != [] ==> Assemble(z).Text?)
  {
    hide Kept, Loop, Joined, Texts;
    TranscriptIsWellFormed(b, history, userMessage, configured);
    var ms := Loop(b, Opening(history, userMessage), StepLimit(configured), 0).state.messages;
    var k := |Kept(history)|;
    assert ms[..k] == ms[..k + 1][..k] == Kept(history);
    assert ms == Kept(history) + ms[k..];
    KeptTexts(history);
    TextsConcat(Kept(history), ms[k..]);
    JoinedSplits(Kept(history), ms[k..]);
  }

  lemma JoinedSplits(history: seq<Message>, turn: seq<Message>)
    ensures Joined(Texts(history + turn)) == Joined(Texts(turn)) <==> Texts(history) == []
  {
    TextsConcat(history, turn);
    JoinedLength(Texts(history), Texts(turn));
    if Texts(history) == [] {
      assert Texts(history) + Texts(turn) == Texts(turn);
    }
  }

  // A turn whose first reply is plain text ends with it.
  lemma {:induction false} PlainReply(b: Backend, history: seq<Message>, userMessage: string, configured: int, text: string)
    requires b.reply(0) == Final(text, []) && text != ""
    ensures Assemble(Loop(b, Opening(history, userMessage), StepLimit(configured), 0).state)
         == Text(Joined(Texts(history) + [text]))
  {
    hide Kept, Texts, Joined;
    var opening := Kept(history) + [User(userMessage)];
    assert Loop(b, Opening(history, userMessage), StepLimit(configured), 0).state.messages == opening + [Assistant(text, [])];
    hide Loop;
    KeptTexts(history);
    TextsPush(Kept(history), User(userMessage));
    TextsPush(opening, Assistant(text, []));
    assert Texts(history) + [] == Texts(history);
  }

  lemma OnlyText(question: string, answer: string)
    requires answer != ""
    ensures Texts([User(question), Assistant(answer, [])]) == [answer]
  {
    assert Texts([]) == [];
    hide Texts;
    TextsPush([], User(question));
    assert [] + [User(question)] == [User(question)];
    TextsPush([User(question)], Assistant(answer, []));
    assert [User(question)] + [Assistant(answer, [])] == [User(question), Assistant(answer, [])];
    assert [] + [] + [answer] == [answer];
  }

  /** A second turn in which the model answers "Two", after an earlier answer "One", replies "One Two". */
  lemma SecondReplyIncludesFirst()
    ensures var b := Backend(n => Final("Two", []), (at, call) => ToolResult(true, None), name => false);
      Assemble(Loop(b, Opening([User("a"), Assistant("One", [])], "b"), StepLimit(5), 0).state) == Text("One Two")
  {
    hide Texts, Joined, Loop, Kept;
    var b := Backend(n => Final("Two", []), (at, call) => ToolResult(true, None), name => false);
    PlainReply(b, [User("a"), Assistant("One", [])], "b", 5, "Two");
    OnlyText("a", "One");
    JoinedPair("One", "Two");
    assert ["One"] + ["Two"] == ["One", "Two"];
    assert "One" + " " + "Two" == "One Two";
  }

  lemma JoinedPair(a: string, b: string)
    ensures Joined([a, b]) == a + " " + b
  {
    assert [a, b][..1] == [a];
  }
}
