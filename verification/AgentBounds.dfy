/** What every reachable state of the agent satisfies, and how often it calls the LLM. */
module AgentBounds {
  import opened Conversation
  import opened AgentState
  import opened AgentMachine
  import AgentReplay

  ghost predicate Reachable(setup: Setup, s: State) {
    match s
    case WaitingForUserInput(_) => true
    case CallingLlm(_, retries) => retries == 0 || retries < setup.maxRetries
    case ProcessingLlmResponse(_, _) => false
    case ExecutingTools(_, executions) => exists e | e in executions :: !e.Completed?
    case PostToolsHook(c, request, done) => request == BuildRequest(setup, c) && AgentReplay.ListsMutation(done)
    case Error(_, _, retries, origin) => origin == LlmOrigin && 1 <= retries < setup.maxRetries
    case ShuttingDown => true
  }

  lemma {:induction false} MutationIsListed(executions: seq<Execution>)
    requires HasMutatingTools(executions)
    ensures AgentReplay.ListsMutation(ExtractCompletedTools(executions))
  {
    var e :| e in executions && IsMutating(e);
    if IsMutating(executions[0]) {
      assert CompletedTool(executions[0].tool, true) in ExtractCompletedTools(executions);
    } else {
      assert e in executions[1..];
      MutationIsListed(executions[1..]);
      var t :| t in ExtractCompletedTools(executions[1..]) && t.succeeded
               && (t.toolName == "edit_file" || t.toolName == "bash");
      assert t in ExtractCompletedTools(executions);
    }
  }

  lemma StepKeepsReachable(setup: Setup, s: State, event: Event)
    requires CounterSafe(setup, s) && Reachable(setup, s)
    ensures Reachable(setup, Step(setup, s, event).0)
  {
    match (s, event) {
      case (CallingLlm(_, _), Llm(Finished(response))) =>
        if response.toolCalls != [] {
          assert StartExecutions(response.toolCalls)[0] in StartExecutions(response.toolCalls);
        }
      case (ExecutingTools(_, executions), ToolCompleted(callId, outcome)) =>
        if HasMutatingTools(RecordAll(executions, callId, outcome)) {
          MutationIsListed(RecordAll(executions, callId, outcome));
        }
      case (_, _) =>
    }
  }

  /** Main result: the invariant holds of every state a run can reach. */
  lemma {:induction false} EveryRunStaysReachable(setup: Setup, id: string, log: seq<Event>)
    ensures Reachable(setup, Run(setup, Initial(id), log))
  {
    if log != [] {
      EveryRunStaysReachable(setup, id, log[..|log| - 1]);
      StepKeepsReachable(setup, Run(setup, Initial(id), log[..|log| - 1]), log[|log| - 1]);
    }
  }

  lemma StepShutsDownIff(setup: Setup, s: State, event: Event)
    requires CounterSafe(setup, s)
    ensures Step(setup, s, event).0.ShuttingDown? <==> s.ShuttingDown? || event.ShutdownRequested?
  {
  }

  /** A run has shut down exactly if shutdown was requested at some point. */
  lemma {:induction false} ShutdownIsAbsorbing(setup: Setup, id: string, log: seq<Event>)
    ensures Run(setup, Initial(id), log).ShuttingDown? <==> ShutdownRequested in log
  {
    if log != [] {
      ShutdownIsAbsorbing(setup, id, log[..|log| - 1]);
      StepShutsDownIff(setup, Run(setup, Initial(id), log[..|log| - 1]), log[|log| - 1]);
      assert log == log[..|log| - 1] + [log[|log| - 1]];
    }
  }

  /**
   Main result: every request the agent asks to be sent, including a retry and one
   held back through the post-tools hook, is the request built from the state after
   the step.
   */
  lemma RequestsAreCurrent(setup: Setup, id: string, log: seq<Event>)
    requires log != [] && LastAction(setup, Initial(id), log).SendLlmRequest?
    ensures var after := Run(setup, Initial(id), log);
            && after.CallingLlm?
            && LastAction(setup, Initial(id), log).request == BuildRequest(setup, after.conversation)
  {
    EveryRunStaysReachable(setup, id, log[..|log| - 1]);
  }

  /** How many messages were pushed while the hook has been holding its request. */
  function HeldBack(setup: Setup, id: string, moves: seq<Move>): nat {
    if moves == [] || !Played(setup, Initial(id), moves[..|moves| - 1]).PostToolsHook? then 0
    else HeldBack(setup, id, moves[..|moves| - 1]) + if moves[|moves| - 1].Push? then 1 else 0
  }

  function WithoutLast(c: Context, k: nat): Context
    requires k <= |c.messages|
  {
    c.(messages := c.messages[..|c.messages| - k])
  }

  /** The held request is built from the conversation as it was when the hook began. */
  lemma {:induction false} HeldRequestIsEarlier(setup: Setup, id: string, moves: seq<Move>)
    requires Played(setup, Initial(id), moves).PostToolsHook?
    ensures var s, k := Played(setup, Initial(id), moves), HeldBack(setup, id, moves);
            k <= |s.conversation.messages| && s.pendingRequest == BuildRequest(setup, WithoutLast(s.conversation, k))
  {
    var n := |moves| - 1;
    var before, last := Played(setup, Initial(id), moves[..n]), moves[n];
    if before.PostToolsHook? {
      HeldRequestIsEarlier(setup, id, moves[..n]);
      if last.Push? {
        var c, k := before.conversation, HeldBack(setup, id, moves[..n]);
        assert (c.messages + [last.message])[..|c.messages| - k] == c.messages[..|c.messages| - k];
      }
    } else {
      var s := Played(setup, Initial(id), moves);
      assert s.conversation.messages[..|s.conversation.messages|] == s.conversation.messages;
    }
  }

  /**
   Main result: over every run of events and messages pushed through `append_message`, a
   request that is sent is built from the conversation without the messages pushed while
   the hook held it. So it is the current request exactly if there are none.
   */
  lemma {:induction false} PushedMessagesReachRequest(setup: Setup, id: string, moves: seq<Move>, event: Event)
    requires Step(setup, Played(setup, Initial(id), moves), event).1.SendLlmRequest?
    ensures var s := Played(setup, Initial(id), moves);
            var (after, action) := Step(setup, s, event);
            var k := if s.PostToolsHook? then HeldBack(setup, id, moves) else 0;
            && after.CallingLlm? && k <= |after.conversation.messages|
            && action.request == BuildRequest(setup, WithoutLast(after.conversation, k))
            && (action.request == BuildRequest(setup, after.conversation) <==> k == 0)
  {
    var s := Played(setup, Initial(id), moves);
    if s.PostToolsHook? {
      HeldRequestIsEarlier(setup, id, moves);
    }
    var c := Step(setup, s, event).0.conversation;
    assert c.messages[..|c.messages|] == c.messages;
  }

  // ----- Retries

  /** The last event made the agent send a request. */
  predicate Sends(setup: Setup, id: string, log: seq<Event>)
    requires log != []
  {
    LastAction(setup, Initial(id), log).SendLlmRequest?
  }

  /** The last event sent a request that is not a retry: a new LLM phase begins. */
  predicate OpensPhase(setup: Setup, id: string, log: seq<Event>)
    requires log != []
  {
    Sends(setup, id, log) && !Run(setup, Initial(id), log[..|log| - 1]).Error?
  }

  /** Requests sent in the current LLM phase. */
  function PhaseRequests(setup: Setup, id: string, log: seq<Event>): nat {
    if log == [] then 0
    else if OpensPhase(setup, id, log) then 1
    else PhaseRequests(setup, id, log[..|log| - 1]) + (if Sends(setup, id, log) then 1 else 0)
  }

  function Requests(setup: Setup, id: string, log: seq<Event>): nat {
    if log == [] then 0
    else Requests(setup, id, log[..|log| - 1]) + (if Sends(setup, id, log) then 1 else 0)
  }

  function Phases(setup: Setup, id: string, log: seq<Event>): nat {
    if log == [] then 0
    else Phases(setup, id, log[..|log| - 1]) + (if OpensPhase(setup, id, log) then 1 else 0)
  }

  function PhaseLimit(setup: Setup): nat {
    if setup.maxRetries == 0 then 1 else setup.maxRetries
  }

  /** The retry counter counts the requests of the phase, and the phase is bounded. */
  lemma {:induction false} PhaseIsBounded(setup: Setup, id: string, log: seq<Event>)
    ensures PhaseRequests(setup, id, log) <= PhaseLimit(setup)
    ensures var s := Run(setup, Initial(id), log);
            && (s.CallingLlm? ==> PhaseRequests(setup, id, log) == s.retries + 1)
            && (s.Error? ==> PhaseRequests(setup, id, log) == s.retries)
  {
    if log != [] {
      PhaseIsBounded(setup, id, log[..|log| - 1]);
      EveryRunStaysReachable(setup, id, log[..|log| - 1]);
      EveryRunStaysReachable(setup, id, log);
    }
  }

  /** What `phases` phases may send. */
  function Budget(setup: Setup, phases: nat): nat {
    if phases == 0 then 0 else PhaseLimit(setup) + Budget(setup, phases - 1)
  }

  lemma {:induction false} BudgetIsProduct(setup: Setup, phases: nat)
    ensures Budget(setup, phases) == PhaseLimit(setup) * phases
  {
    if phases > 0 {
      BudgetIsProduct(setup, phases - 1);
    }
  }

  predicate WithinBudget(setup: Setup, phases: nat, requests: nat, inPhase: nat) {
    if phases == 0 then requests == inPhase == 0 else requests <= Budget(setup, phases - 1) + inPhase
  }

  lemma BudgetStep(setup: Setup, phases: nat, requests: nat, inPhase: nat)
    requires WithinBudget(setup, phases, requests, inPhase)
    ensures inPhase <= PhaseLimit(setup) ==> WithinBudget(setup, phases + 1, requests + 1, 1)
    ensures inPhase > 0 ==> WithinBudget(setup, phases, requests + 1, inPhase + 1)
  {
  }

  /** A retry belongs to a phase that has sent a request before. */
  lemma {:induction false} RetryHasPredecessor(setup: Setup, id: string, log: seq<Event>)
    requires log != [] && Sends(setup, id, log) && !OpensPhase(setup, id, log)
    ensures PhaseRequests(setup, id, log[..|log| - 1]) > 0
  {
    PhaseIsBounded(setup, id, log[..|log| - 1]);
    EveryRunStaysReachable(setup, id, log[..|log| - 1]);
  }

  lemma {:induction false} RequestsWithinBudget(setup: Setup, id: string, log: seq<Event>)
    ensures WithinBudget(setup, Phases(setup, id, log), Requests(setup, id, log), PhaseRequests(setup, id, log))
  {
    if log != [] {
      var before := log[..|log| - 1];
      RequestsWithinBudget(setup, id, before);
      if OpensPhase(setup, id, log) {
        PhaseIsBounded(setup, id, before);
      } else if Sends(setup, id, log) {
        RetryHasPredecessor(setup, id, log);
      }
      BudgetStep(setup, Phases(setup, id, before), Requests(setup, id, before), PhaseRequests(setup, id, before));
    }
  }

  /** Main result: a run sends at most `max(1, max_retries)` requests per LLM phase. */
  lemma {:induction false} RequestsAreBounded(setup: Setup, id: string, log: seq<Event>)
    ensures Requests(setup, id, log) <= PhaseLimit(setup) * Phases(setup, id, log)
  {
    RequestsWithinBudget(setup, id, log);
    PhaseIsBounded(setup, id, log);
    BudgetIsProduct(setup, Phases(setup, id, log));
  }
}
