/**
 `Agent::handle_event`: the step function of the state machine and the class that
 executes it in place.
 */
module AgentMachine {
  import opened Conversation
  import opened AgentState

  function BuildRequest(setup: Setup, conversation: Context): LlmRequest {
    LlmRequest(setup.modelName, conversation.messages, setup.tools, Some(setup.maxTokens), setup.temperature)
  }

  predicate IsMutating(e: Execution) {
    e.Completed? && e.tool in ["edit_file", "bash"] && e.outcome.Success?
  }

  predicate HasMutatingTools(executions: seq<Execution>) {
    exists e | e in executions :: IsMutating(e)
  }

  function ExtractCompletedTools(executions: seq<Execution>): (r: seq<CompletedTool>) {
    if executions == [] then [] else
      var rest := ExtractCompletedTools(executions[1..]);
      if executions[0].Completed?
      then [CompletedTool(executions[0].tool, executions[0].outcome.Success?)] + rest
      else rest
  }

  predicate AllCompleted(executions: seq<Execution>) {
    forall e | e in executions :: e.Completed?
  }

  function ToolMessage(callId: string, outcome: Outcome): Message {
    Message(Tool, outcome.Report(), Some(callId), None, [])
  }

  /** Every execution of the call is overwritten, finished ones included. */
  function Record(e: Execution, callId: string, outcome: Outcome): Execution {
    if e.id == callId then Completed(callId, e.tool, outcome) else e
  }

  function RecordAll(executions: seq<Execution>, callId: string, outcome: Outcome): (r: seq<Execution>)
    ensures |r| == |executions|
  {
    seq(|executions|, i requires 0 <= i < |executions| => Record(executions[i], callId, outcome))
  }

  function ToolMessages(executions: seq<Execution>): seq<Message> {
    if executions == [] then [] else
      var rest := ToolMessages(executions[1..]);
      if executions[0].Completed? then [ToolMessage(executions[0].id, executions[0].outcome)] + rest else rest
  }

  function StartExecutions(calls: seq<ToolCall>): (r: seq<Execution>)
    ensures |r| == |calls|
  {
    seq(|calls|, i requires 0 <= i < |calls| => Pending(calls[i].id, calls[i].toolName))
  }

  /** Where a response that has just been appended to `c` leads. */
  function Process(c: Context, response: LlmResponse): (State, Action) {
    if response.toolCalls != []
    then (ExecutingTools(c, StartExecutions(response.toolCalls)), ExecuteTools(response.toolCalls))
    else (WaitingForUserInput(c), WaitForInput)
  }

  /** Where a batch whose executions are now `executions` leads. */
  function Settle(setup: Setup, c: Context, executions: seq<Execution>): (State, Action) {
    if !AllCompleted(executions) then (ExecutingTools(c, executions), WaitForInput) else
      var c' := c.(messages := c.messages + ToolMessages(executions));
      var request := BuildRequest(setup, c');
      if HasMutatingTools(executions) then
        var done := ExtractCompletedTools(executions);
        (PostToolsHook(c', request, done), RunPostToolsHook(done))
      else
        (CallingLlm(c', 0), SendLlmRequest(request))
  }

  /** The retry counter stays clear of the end of its 32-bit range. */
  predicate CounterSafe(setup: Setup, s: State) {
    s.CallingLlm? || s.Error? ==> s.retries == 0 || s.retries < setup.maxRetries
  }

  function Step(setup: Setup, s: State, event: Event): (State, Action)
    requires CounterSafe(setup, s)
  {
    match (s, event)
    case (WaitingForUserInput(c), UserInput(m)) =>
      var c' := c.(messages := c.messages + [m]);
      (CallingLlm(c', 0), SendLlmRequest(BuildRequest(setup, c')))
    case (CallingLlm(_, _), Llm(TextDelta(content))) => (s, DisplayMessage(content))
    case (CallingLlm(_, _), Llm(ToolCallDelta(_, _, _))) => (s, WaitForInput)
    case (CallingLlm(c, _), Llm(Finished(response))) =>
      Process(c.(messages := c.messages + [response.message]), response)
    case (CallingLlm(c, retries), Llm(Failed(e))) =>
      if retries + 1 < setup.maxRetries
      then (Error(c, LlmError(e), retries + 1, LlmOrigin), WaitForInput)
      else (WaitingForUserInput(c), DisplayError(LlmError(e).Display()))
    case (Error(c, _, retries, LlmOrigin), RetryTimeoutFired) =>
      (CallingLlm(c, retries), SendLlmRequest(BuildRequest(setup, c)))
    case (ExecutingTools(c, executions), ToolCompleted(callId, outcome)) =>
      Settle(setup, c, RecordAll(executions, callId, outcome))
    case (PostToolsHook(c, request, _), PostToolsHookCompleted(_)) =>
      (CallingLlm(c, 0), SendLlmRequest(request))
    case (_, ShutdownRequested) => (ShuttingDown, Shutdown)
    case (_, _) => (s, WaitForInput)
  }

  lemma StepKeepsCounterSafe(setup: Setup, s: State, event: Event)
    requires CounterSafe(setup, s)
    ensures CounterSafe(setup, Step(setup, s, event).0)
  {
  }

  function Initial(id: string): State {
    WaitingForUserInput(Context(id, []))
  }

  /** The state after handling all of `log`. */
  function Run(setup: Setup, s: State, log: seq<Event>): (r: State)
    requires CounterSafe(setup, s)
    ensures CounterSafe(setup, r)
  {
    if log == [] then s else
      var before := Run(setup, s, log[..|log| - 1]);
      StepKeepsCounterSafe(setup, before, log[|log| - 1]);
      Step(setup, before, log[|log| - 1]).0
  }

  /** The action returned for the last event of `log`. */
  function LastAction(setup: Setup, s: State, log: seq<Event>): Action
    requires CounterSafe(setup, s)
    requires log != []
  {
    Step(setup, Run(setup, s, log[..|log| - 1]), log[|log| - 1]).1
  }

  function Append(s: State, messages: seq<Message>): State
    requires !s.ShuttingDown?
  {
    s.(conversation := s.conversation.(messages := s.conversation.messages + messages))
  }

  /** One call on an agent: an event, or a message pushed from outside. */
  datatype Move = Handle(event: Event) | Push(message: Message)

  /** After shutdown there is no conversation to push to; the source panics then. */
  function Moved(setup: Setup, s: State, move: Move): State
    requires CounterSafe(setup, s)
  {
    match move
    case Handle(event) => Step(setup, s, event).0
    case Push(message) => if s.ShuttingDown? then s else Append(s, [message])
  }

  /** The state after all of `moves`. */
  function Played(setup: Setup, s: State, moves: seq<Move>): (r: State)
    requires CounterSafe(setup, s)
    ensures CounterSafe(setup, r)
  {
    if moves == [] then s else
      var before, last := Played(setup, s, moves[..|moves| - 1]), moves[|moves| - 1];
      if last.Handle? then StepKeepsCounterSafe(setup, before, last.event); Moved(setup, before, last)
      else Moved(setup, before, last)
  }

  /** In every state but shutdown, a push adds exactly the message at the end, and changes nothing else. */
  lemma PushAddsMessage(setup: Setup, s: State, message: Message)
    requires CounterSafe(setup, s) && !s.ShuttingDown?
    ensures var s' := Moved(setup, s, Push(message));
            && !s'.ShuttingDown? && s'.(conversation := s.conversation) == s
            && s'.conversation.id == s.conversation.id
            && |s'.conversation.messages| == |s.conversation.messages| + 1
            && s.conversation.messages <= s'.conversation.messages
            && s'.conversation.messages[|s.conversation.messages|] == message
  {
  }

  /** A run of events is the run of moves that only handles them. */
  lemma {:induction false} HandlingIsRunning(setup: Setup, s: State, log: seq<Event>)
    requires CounterSafe(setup, s)
    ensures Played(setup, s, seq(|log|, i requires 0 <= i < |log| => Handle(log[i]))) == Run(setup, s, log)
  {
    if log != [] {
      var n, moves := |log| - 1, seq(|log|, i requires 0 <= i < |log| => Handle(log[i]));
      assert moves[..n] == seq(n, i requires 0 <= i < n => Handle(log[..n][i]));
      HandlingIsRunning(setup, s, log[..n]);
    }
  }

  class Agent {
    const setup: Setup
    ghost const id: string
    var state: State
    /** Every call so far. */
    ghost var moves: seq<Move>

    /** The state is the one that the calls lead to. */
    ghost predicate Tracks()
      reads this
    {
      state == Played(setup, Initial(id), moves)
    }

    constructor (setup: Setup, id: string)
      ensures this.setup == setup && this.id == id && moves == []
      ensures state == Initial(id) && Tracks() && CounterSafe(setup, state)
    {
      this.setup, this.id := setup, id;
      state, moves := WaitingForUserInput(Context(id, [])), [];
    }

    method AppendMessage(message: Message)
      requires !state.ShuttingDown?
      requires CounterSafe(setup, state)
      modifies this
      ensures CounterSafe(setup, state) && !state.ShuttingDown?
      ensures state.(conversation := old(state).conversation) == old(state)
      ensures state.conversation.id == old(state).conversation.id
      ensures state.conversation.messages == old(state).conversation.messages + [message]
      ensures moves == old(moves) + [Push(message)]
      ensures old(Tracks()) ==> Tracks()
    {
      moves := moves + [Push(message)];
      assert moves[..|moves| - 1] == old(moves);
      state := state.(conversation := state.conversation.(messages := state.conversation.messages + [message]));
    }

    method HandleEvent(event: Event) returns (action: Action)
      requires CounterSafe(setup, state)
      modifies this
      ensures (state, action) == Step(setup, old(state), event)
      ensures CounterSafe(setup, state)
      ensures moves == old(moves) + [Handle(event)]
      ensures old(Tracks()) ==> Tracks()
    {
      moves := moves + [Handle(event)];
      assert moves[..|moves| - 1] == old(moves);
      match (state, event) {
        case (WaitingForUserInput(c), UserInput(m)) =>
          var c' := c.(messages := c.messages + [m]);
          state := CallingLlm(c', 0);
          action := SendLlmRequest(BuildRequest(setup, c'));
        case (CallingLlm(_, _), Llm(TextDelta(content))) =>
          action := DisplayMessage(content);
        case (CallingLlm(_, _), Llm(ToolCallDelta(_, _, _))) =>
          action := WaitForInput;
        case (CallingLlm(c, _), Llm(Finished(response))) =>
          state := ProcessingLlmResponse(c.(messages := c.messages + [response.message]), response);
          action := ProcessLlmResponse();
        case (CallingLlm(c, retries), Llm(Failed(e))) =>
          var newRetries: U32 := retries + 1;
          if newRetries < setup.maxRetries {
            state := Error(c, LlmError(e), newRetries, LlmOrigin);
            action := WaitForInput;
          } else {
            state := WaitingForUserInput(c);
            action := DisplayError(LlmError(e).Display());
          }
        case (Error(c, _, retries, LlmOrigin), RetryTimeoutFired) =>
          state := CallingLlm(c, retries);
          action := SendLlmRequest(BuildRequest(setup, c));
        case (ExecutingTools(_, _), ToolCompleted(callId, outcome)) =>
          RecordCompletion(callId, outcome);
          action := CloseBatch();
        case (PostToolsHook(c, request, _), PostToolsHookCompleted(_)) =>
          state := CallingLlm(c, 0);
          action := SendLlmRequest(request);
        case (_, ShutdownRequested) =>
          state := ShuttingDown;
          action := Shutdown;
        case (_, _) =>
          action := WaitForInput;
      }
    }

    method ProcessLlmResponse() returns (action: Action)
      modifies this`state
      ensures old(state).ProcessingLlmResponse? ==>
                (state, action) == Process(old(state).conversation, old(state).response)
      ensures !old(state).ProcessingLlmResponse? ==> state == old(state) && action == WaitForInput
    {
      if !state.ProcessingLlmResponse? {
        return WaitForInput;
      }
      var c, response := state.conversation, state.response;
      if response.toolCalls != [] {
        state := ExecutingTools(c, StartExecutions(response.toolCalls));
        action := ExecuteTools(response.toolCalls);
      } else {
        state := WaitingForUserInput(c);
        action := WaitForInput;
      }
    }

    /** The loop that overwrites the executions of one call. */
    method RecordCompletion(callId: string, outcome: Outcome)
      requires state.ExecutingTools?
      modifies this`state
      ensures state == old(state).(executions := RecordAll(old(state).executions, callId, outcome))
    {
      ghost var start := state.executions;
      var i := 0;
      while i < |state.executions|
        invariant state.ExecutingTools?
        invariant 0 <= i <= |state.executions| == |start|
        invariant state == old(state).(executions := state.executions)
        invariant forall k :: 0 <= k < i ==> state.executions[k] == Record(start[k], callId, outcome)
        invariant forall k :: i <= k < |start| ==> state.executions[k] == start[k]
      {
        if state.executions[i].id == callId {
          var tool := state.executions[i].tool;
          state := state.(executions := state.executions[i := Completed(callId, tool, outcome)]);
        }
        i := i + 1;
      }
      assert state.executions == RecordAll(start, callId, outcome);
    }

    /** The tail of the ToolCompleted branch: send the results once every call has one. */
    method CloseBatch() returns (action: Action)
      requires state.ExecutingTools?
      modifies this`state
      ensures (state, action) == Settle(setup, old(state).conversation, old(state).executions)
    {
      var c, executions := state.conversation, state.executions;
      if !AllCompleted(executions) {
        return WaitForInput;
      }
      var toolMessages := [];
      var i := 0;
      while i < |executions|
        invariant 0 <= i <= |executions|
        invariant toolMessages + ToolMessages(executions[i..]) == ToolMessages(executions)
      {
        assert executions[i..][1..] == executions[i + 1..];
        if executions[i].Completed? {
          toolMessages := toolMessages + [ToolMessage(executions[i].id, executions[i].outcome)];
        }
        i := i + 1;
      }
      assert toolMessages == ToolMessages(executions);
      var c' := c.(messages := c.messages + toolMessages);
      var request := BuildRequest(setup, c');
      if HasMutatingTools(executions) {
        var done := ExtractCompletedTools(executions);
        state := PostToolsHook(c', request, done);
        action := RunPostToolsHook(done);
      } else {
        state := CallingLlm(c', 0);
        action := SendLlmRequest(request);
      }
    }
  }
}
