/**
 What a whole run of `handle_event` does to the conversation.

 `Replay` is a reference reading of an event log. It keeps no executions and no
 requests: for an open batch it only remembers the calls and the completions heard
 since the batch was opened, and reads each result off that record. Every run of the
 state machine agrees with it.
 */
module AgentReplay {
  import opened Conversation
  import opened AgentState
  import opened AgentMachine

  datatype Completion = Completion(callId: string, outcome: Outcome)

  datatype Phase =
    | Idle
    | Calling(attempt: nat)
    | Batch(calls: seq<ToolCall>, heard: seq<Completion>)
    | Hook(done: seq<CompletedTool>)
    | Backoff(attempt: nat, cause: string)
    | Down

  datatype Transcript = Transcript(phase: Phase, messages: seq<Message>)

  /** The last outcome heard for a call. */
  function LastHeard(heard: seq<Completion>, callId: string): Option<Outcome> {
    if heard == [] then None else
      var last := heard[|heard| - 1];
      if last.callId == callId then Some(last.outcome) else LastHeard(heard[..|heard| - 1], callId)
  }

  predicate Answered(calls: seq<ToolCall>, heard: seq<Completion>) {
    forall c | c in calls :: LastHeard(heard, c.id).Some?
  }

  /**
   One Tool message per call, in call order: the output of the last outcome heard for it as
   it is, or its error marked as such.
   */
  function Answers(calls: seq<ToolCall>, heard: seq<Completion>): (r: seq<Message>)
    requires Answered(calls, heard)
    ensures |r| == |calls|
  {
    seq(|calls|, i requires 0 <= i < |calls| =>
      var content := match LastHeard(heard, calls[i].id).value
                     case Success(_, output) => output
                     case Failure(_, error) => "Error: " + error;
      Message(Tool, content, Some(calls[i].id), None, []))
  }

  function DoneTools(calls: seq<ToolCall>, heard: seq<Completion>): (r: seq<CompletedTool>)
    requires Answered(calls, heard)
    ensures |r| == |calls|
  {
    seq(|calls|, i requires 0 <= i < |calls| =>
      CompletedTool(calls[i].toolName, LastHeard(heard, calls[i].id).value.Success?))
  }

  predicate ListsMutation(done: seq<CompletedTool>) {
    exists t | t in done :: t.succeeded && (t.toolName == "edit_file" || t.toolName == "bash")
  }

  function Advance(maxRetries: nat, t: Transcript, event: Event): Transcript {
    match (t.phase, event)
    case (Idle, UserInput(m)) => Transcript(Calling(0), t.messages + [m])
    case (Calling(_), Llm(Finished(response))) =>
      Transcript(if response.toolCalls == [] then Idle else Batch(response.toolCalls, []),
                 t.messages + [response.message])
    case (Calling(n), Llm(Failed(e))) => t.(phase := if n + 1 < maxRetries then Backoff(n + 1, e) else Idle)
    case (Backoff(n, _), RetryTimeoutFired) => t.(phase := Calling(n))
    case (Batch(calls, heard), ToolCompleted(callId, outcome)) =>
      var heard' := heard + [Completion(callId, outcome)];
      if !Answered(calls, heard') then t.(phase := Batch(calls, heard')) else
        var done := DoneTools(calls, heard');
        Transcript(if ListsMutation(done) then Hook(done) else Calling(0), t.messages + Answers(calls, heard'))
    case (Hook(_), PostToolsHookCompleted(_)) => t.(phase := Calling(0))
    case (_, ShutdownRequested) => t.(phase := Down)
    case (_, _) => t
  }

  function Replay(maxRetries: nat, log: seq<Event>): Transcript {
    if log == [] then Transcript(Idle, []) else
      Advance(maxRetries, Replay(maxRetries, log[..|log| - 1]), log[|log| - 1])
  }

  function Status(call: ToolCall, heard: seq<Completion>): Execution {
    match LastHeard(heard, call.id)
    case None => Pending(call.id, call.toolName)
    case Some(outcome) => Completed(call.id, call.toolName, outcome)
  }

  function Statuses(calls: seq<ToolCall>, heard: seq<Completion>): (r: seq<Execution>)
    ensures |r| == |calls|
  {
    seq(|calls|, i requires 0 <= i < |calls| => Status(calls[i], heard))
  }

  /** State `s` is the one that transcript `t` describes. */
  predicate Matches(setup: Setup, id: string, s: State, t: Transcript) {
    match t.phase
    case Down => s == ShuttingDown
    case Idle => s == WaitingForUserInput(Context(id, t.messages))
    case Calling(n) => s.CallingLlm? && s.conversation == Context(id, t.messages) && s.retries == n
    case Batch(calls, heard) =>
      s == ExecutingTools(Context(id, t.messages), Statuses(calls, heard)) && !Answered(calls, heard)
    case Hook(done) =>
      s == PostToolsHook(Context(id, t.messages), BuildRequest(setup, Context(id, t.messages)), done)
    case Backoff(n, e) =>
      s.Error? && s.conversation == Context(id, t.messages) && s.retries == n
      && s.error == LlmError(e) && s.origin == LlmOrigin
  }

  // ----- Executions and the record of completions

  lemma RecordStatuses(calls: seq<ToolCall>, heard: seq<Completion>, callId: string, outcome: Outcome)
    ensures RecordAll(Statuses(calls, heard), callId, outcome)
         == Statuses(calls, heard + [Completion(callId, outcome)])
  {
    var heard' := heard + [Completion(callId, outcome)];
    assert heard'[..|heard'| - 1] == heard;
  }

  lemma {:induction false} StatusesHead(calls: seq<ToolCall>, heard: seq<Completion>)
    requires calls != []
    ensures Statuses(calls, heard)[0] == Status(calls[0], heard)
    ensures Statuses(calls, heard)[1..] == Statuses(calls[1..], heard)
    ensures Answered(calls, heard) ==> Answered(calls[1..], heard) && LastHeard(heard, calls[0].id).Some?
  {
    assert calls[0] in calls && forall c | c in calls[1..] :: c in calls;
  }

  lemma {:induction false} CompletedStatusMessages(calls: seq<ToolCall>, heard: seq<Completion>)
    requires Answered(calls, heard)
    ensures ToolMessages(Statuses(calls, heard)) == Answers(calls, heard)
  {
    if calls != [] {
      StatusesHead(calls, heard);
      CompletedStatusMessages(calls[1..], heard);
      AnswersHead(calls, heard);
    }
  }

  lemma {:induction false} AnswersHead(calls: seq<ToolCall>, heard: seq<Completion>)
    requires calls != [] && Answered(calls, heard) && Answered(calls[1..], heard)
    requires LastHeard(heard, calls[0].id).Some?
    ensures Answers(calls, heard)
         == [ToolMessage(calls[0].id, LastHeard(heard, calls[0].id).value)] + Answers(calls[1..], heard)
  {
  }

  lemma {:induction false} CompletedStatusTools(calls: seq<ToolCall>, heard: seq<Completion>)
    requires Answered(calls, heard)
    ensures ExtractCompletedTools(Statuses(calls, heard)) == DoneTools(calls, heard)
  {
    if calls != [] {
      StatusesHead(calls, heard);
      CompletedStatusTools(calls[1..], heard);
      assert DoneTools(calls, heard) == [DoneTools(calls, heard)[0]] + DoneTools(calls[1..], heard);
    }
  }

  lemma StatusesCompletedIffAnswered(calls: seq<ToolCall>, heard: seq<Completion>)
    ensures AllCompleted(Statuses(calls, heard)) <==> Answered(calls, heard)
  {
    var r := Statuses(calls, heard);
    if AllCompleted(r) {
      forall c | c in calls ensures LastHeard(heard, c.id).Some? {
        var i :| 0 <= i < |calls| && calls[i] == c;
        assert r[i] in r;
      }
    }
    if Answered(calls, heard) {
      forall e | e in r ensures e.Completed? {
        var i :| 0 <= i < |r| && r[i] == e;
        assert calls[i] in calls;
      }
    }
  }

  lemma MutatingIffListed(calls: seq<ToolCall>, heard: seq<Completion>)
    requires Answered(calls, heard)
    ensures HasMutatingTools(Statuses(calls, heard)) <==> ListsMutation(DoneTools(calls, heard))
  {
    var r, done := Statuses(calls, heard), DoneTools(calls, heard);
    forall i | 0 <= i < |calls|
      ensures IsMutating(r[i]) <==> done[i].succeeded && (done[i].toolName == "edit_file" || done[i].toolName == "bash")
    {
      assert calls[i] in calls;
    }
    if HasMutatingTools(r) {
      var e :| e in r && IsMutating(e);
      var i :| 0 <= i < |r| && r[i] == e;
      assert done[i] in done;
    }
    if ListsMutation(done) {
      var t :| t in done && t.succeeded && (t.toolName == "edit_file" || t.toolName == "bash");
      var i :| 0 <= i < |done| && done[i] == t;
      assert r[i] in r;
    }
  }

  /** Hearing one more completion settles the batch exactly as the record says. */
  lemma SettleReadsRecord(setup: Setup, c: Context, calls: seq<ToolCall>, heard: seq<Completion>)
    ensures !Answered(calls, heard) ==>
              Settle(setup, c, Statuses(calls, heard)) == (ExecutingTools(c, Statuses(calls, heard)), WaitForInput)
    ensures Answered(calls, heard) ==>
              var c' := c.(messages := c.messages + Answers(calls, heard));
              var done := DoneTools(calls, heard);
              Settle(setup, c, Statuses(calls, heard)) ==
              if ListsMutation(done)
              then (PostToolsHook(c', BuildRequest(setup, c'), done), RunPostToolsHook(done))
              else (CallingLlm(c', 0), SendLlmRequest(BuildRequest(setup, c')))
  {
    StatusesCompletedIffAnswered(calls, heard);
    if Answered(calls, heard) {
      CompletedStatusMessages(calls, heard);
      CompletedStatusTools(calls, heard);
      MutatingIffListed(calls, heard);
    }
  }

  lemma BatchStart(calls: seq<ToolCall>)
    ensures StartExecutions(calls) == Statuses(calls, [])
    ensures calls != [] ==> !Answered(calls, [])
  {
    if calls != [] {
      assert calls[0] in calls;
    }
  }

  // ----- Replay

  lemma StepMatchesAdvance(setup: Setup, id: string, s: State, t: Transcript, event: Event)
    requires CounterSafe(setup, s) && Matches(setup, id, s, t)
    ensures Matches(setup, id, Step(setup, s, event).0, Advance(setup.maxRetries, t, event))
  {
    match (t.phase, event) {
      case (Calling(_), Llm(Finished(response))) =>
        BatchStart(response.toolCalls);
      case (Batch(calls, heard), ToolCompleted(callId, outcome)) =>
        RecordStatuses(calls, heard, callId, outcome);
        SettleReadsRecord(setup, s.conversation, calls, heard + [Completion(callId, outcome)]);
      case (_, _) =>
    }
  }

  /** Main result: every run of the agent is the replay of its event log. */
  lemma {:induction false} RunIsReplay(setup: Setup, id: string, log: seq<Event>)
    ensures Matches(setup, id, Run(setup, Initial(id), log), Replay(setup.maxRetries, log))
  {
    if log != [] {
      var before := log[..|log| - 1];
      RunIsReplay(setup, id, before);
      StepMatchesAdvance(setup, id, Run(setup, Initial(id), before), Replay(setup.maxRetries, before), log[|log| - 1]);
    }
  }

  /** What the caller is told when an event takes the transcript from `t` to `t'`: what has newly begun. */
  function Announced(setup: Setup, t: Transcript, t': Transcript, event: Event): Action {
    if event.ShutdownRequested? then Shutdown
    else if t'.phase == t.phase || (t.phase.Batch? && t'.phase.Batch?) then
      if t.phase.Calling? && event.Llm? && event.event.TextDelta? then DisplayMessage(event.event.content)
      else WaitForInput
    else match t'.phase
      case Calling(_) =>
        SendLlmRequest(LlmRequest(setup.modelName, t'.messages, setup.tools, Some(setup.maxTokens), setup.temperature))
      case Batch(calls, _) => ExecuteTools(calls)
      case Hook(done) => RunPostToolsHook(done)
      case Idle =>
        if event.Llm? && event.event.Failed? then DisplayError("LLM error: " + event.event.error) else WaitForInput
      case Backoff(_, _) => WaitForInput
      case Down => Shutdown
  }

  lemma StepAnnounces(setup: Setup, id: string, s: State, t: Transcript, event: Event)
    requires CounterSafe(setup, s) && Matches(setup, id, s, t)
    ensures Step(setup, s, event).1 == Announced(setup, t, Advance(setup.maxRetries, t, event), event)
  {
    match (t.phase, event) {
      case (Calling(_), Llm(Finished(response))) =>
        BatchStart(response.toolCalls);
      case (Batch(calls, heard), ToolCompleted(callId, outcome)) =>
        RecordStatuses(calls, heard, callId, outcome);
        SettleReadsRecord(setup, s.conversation, calls, heard + [Completion(callId, outcome)]);
      case (_, _) =>
    }
  }

  /**
   Main result: in every run, each action is determined by the replay alone. A request
   is sent exactly when an LLM call begins and carries the replayed messages; tools and
   the hook are started exactly when their phase begins.
   */
  lemma {:induction false} ActionsFollowReplay(setup: Setup, id: string, log: seq<Event>)
    requires log != []
    ensures LastAction(setup, Initial(id), log)
         == Announced(setup, Replay(setup.maxRetries, log[..|log| - 1]), Replay(setup.maxRetries, log), log[|log| - 1])
  {
    var before := log[..|log| - 1];
    RunIsReplay(setup, id, before);
    StepAnnounces(setup, id, Run(setup, Initial(id), before), Replay(setup.maxRetries, before), log[|log| - 1]);
  }

  // ----- Runs

  lemma {:induction false} RunSplit(setup: Setup, s: State, a: seq<Event>, b: seq<Event>)
    requires CounterSafe(setup, s)
    ensures Run(setup, s, a + b) == Run(setup, Run(setup, s, a), b)
    ensures b != [] ==> LastAction(setup, s, a + b) == LastAction(setup, Run(setup, s, a), b)
  {
    if b == [] {
      assert a + b == a;
    } else {
      assert (a + b)[..|a + b| - 1] == a + b[..|b| - 1];
      RunSplit(setup, s, a, b[..|b| - 1]);
    }
  }

  lemma StepOnlyAppends(setup: Setup, s: State, event: Event)
    requires CounterSafe(setup, s)
    requires !Step(setup, s, event).0.ShuttingDown?
    ensures !s.ShuttingDown? && event != ShutdownRequested
    ensures Step(setup, s, event).0.conversation.id == s.conversation.id
    ensures s.conversation.messages <= Step(setup, s, event).0.conversation.messages
  {
  }

  /** Handling events only ever appends to the conversation, and keeps its id. */
  lemma {:induction false} RunOnlyAppends(setup: Setup, s: State, log: seq<Event>)
    requires CounterSafe(setup, s)
    requires !Run(setup, s, log).ShuttingDown?
    ensures !s.ShuttingDown? && ShutdownRequested !in log
    ensures Run(setup, s, log).conversation.id == s.conversation.id
    ensures s.conversation.messages <= Run(setup, s, log).conversation.messages
  {
    if log != [] {
      StepOnlyAppends(setup, Run(setup, s, log[..|log| - 1]), log[|log| - 1]);
      RunOnlyAppends(setup, s, log[..|log| - 1]);
      assert log == log[..|log| - 1] + [log[|log| - 1]];
    }
  }

  // ----- One batch of tool calls

  function Completions(events: seq<Event>): seq<Completion> {
    if events == [] then [] else
      var rest, last := Completions(events[..|events| - 1]), events[|events| - 1];
      if last.ToolCompleted? then rest + [Completion(last.callId, last.outcome)] else rest
  }

  /** The batch is answered by `events` and by no shorter prefix of them. */
  predicate ClosedBy(calls: seq<ToolCall>, events: seq<Event>) {
    && events != []
    && Answered(calls, Completions(events))
    && !Answered(calls, Completions(events[..|events| - 1]))
  }

  lemma HearingMoreKeepsAnswers(calls: seq<ToolCall>, heard: seq<Completion>, more: Completion)
    ensures Answered(calls, heard) ==> Answered(calls, heard + [more])
  {
    assert (heard + [more])[..|heard|] == heard;
  }

  /** Until every call has a result the batch only records, whatever else arrives. */
  lemma {:induction false} BatchStaysOpen(setup: Setup, c: Context, calls: seq<ToolCall>, events: seq<Event>)
    requires ShutdownRequested !in events
    requires !Answered(calls, Completions(events))
    ensures var s := ExecutingTools(c, StartExecutions(calls));
            && Run(setup, s, events) == ExecutingTools(c, Statuses(calls, Completions(events)))
            && (events != [] ==> LastAction(setup, s, events) == WaitForInput)
  {
    if events == [] {
      BatchStart(calls);
    } else {
      var before, last := events[..|events| - 1], events[|events| - 1];
      assert last in events && forall e | e in before :: e in events;
      BatchStaysOpen(setup, c, calls, before);
      if last.ToolCompleted? {
        HearingMoreKeepsAnswers(calls, Completions(before), Completion(last.callId, last.outcome));
        RecordStatuses(calls, Completions(before), last.callId, last.outcome);
        SettleReadsRecord(setup, c, calls, Completions(events));
      }
    }
  }

  /** The completion that answers the last open call sends all results at once. */
  lemma BatchCloses(setup: Setup, c: Context, calls: seq<ToolCall>, events: seq<Event>)
    requires ShutdownRequested !in events
    requires ClosedBy(calls, events)
    ensures var s := ExecutingTools(c, StartExecutions(calls));
            var c' := c.(messages := c.messages + Answers(calls, Completions(events)));
            var done := DoneTools(calls, Completions(events));
            (Run(setup, s, events), LastAction(setup, s, events)) ==
            if ListsMutation(done)
            then (PostToolsHook(c', BuildRequest(setup, c'), done), RunPostToolsHook(done))
            else (CallingLlm(c', 0), SendLlmRequest(BuildRequest(setup, c')))
  {
    var before, last := events[..|events| - 1], events[|events| - 1];
    assert forall e | e in before :: e in events;
    BatchStaysOpen(setup, c, calls, before);
    assert last.ToolCompleted?;
    RecordStatuses(calls, Completions(before), last.callId, last.outcome);
    SettleReadsRecord(setup, c, calls, Completions(events));
  }

  lemma {:induction false} FindClosing(calls: seq<ToolCall>, events: seq<Event>) returns (k: nat)
    requires calls != []
    requires Answered(calls, Completions(events))
    ensures 0 < k <= |events| && ClosedBy(calls, events[..k])
  {
    BatchStart(calls);
    var before := events[..|events| - 1];
    if Answered(calls, Completions(before)) {
      k := FindClosing(calls, before);
      assert before[..k] == events[..k];
    } else {
      k := |events|;
      assert events[..k] == events;
    }
  }

  /**
   Every call of the batch opened at `i` has been answered by the first `k` events
   after it: at that point the Tool messages directly follow the response, and they
   are still there in the later conversation `now`.
   */
  ghost predicate AnsweredAt(setup: Setup, id: string, log: seq<Event>, i: nat, k: nat,
                             base: seq<Message>, calls: seq<ToolCall>, now: seq<Message>)
    requires i + 1 + k <= |log|
  {
    var since := log[i + 1..i + 1 + k];
    var s := Run(setup, Initial(id), log[..i + 1 + k]);
    && ClosedBy(calls, since)
    && !s.ShuttingDown?
    && s.conversation.messages == base + Answers(calls, Completions(since))
    && s.conversation.messages <= now
  }

  /** Event `i` of the run is a response that asks for tools. */
  predicate OpensBatch(setup: Setup, id: string, log: seq<Event>, i: nat) {
    && i < |log|
    && Run(setup, Initial(id), log[..i]).CallingLlm?
    && log[i].Llm? && log[i].event.Finished? && log[i].event.response.toolCalls != []
  }

  lemma ResponseOpensBatch(setup: Setup, id: string, log: seq<Event>, i: nat)
    requires OpensBatch(setup, id, log, i)
    ensures var response := log[i].event.response;
            var base := Run(setup, Initial(id), log[..i]).conversation.messages + [response.message];
            Run(setup, Initial(id), log[..i + 1])
            == ExecutingTools(Context(id, base), StartExecutions(response.toolCalls))
  {
    assert log[..i + 1][..i] == log[..i];
    RunOnlyAppends(setup, Initial(id), log[..i]);
  }

  /** Along one log, a later conversation extends every earlier one. */
  lemma ConversationGrows(setup: Setup, id: string, log: seq<Event>, m: nat, j: nat)
    requires m <= j <= |log|
    requires !Run(setup, Initial(id), log[..j]).ShuttingDown?
    ensures !Run(setup, Initial(id), log[..m]).ShuttingDown?
    ensures Run(setup, Initial(id), log[..m]).conversation.messages
         <= Run(setup, Initial(id), log[..j]).conversation.messages
  {
    assert log[..j] == log[..m] + log[m..j];
    RunSplit(setup, Initial(id), log[..m], log[m..j]);
    RunOnlyAppends(setup, Run(setup, Initial(id), log[..m]), log[m..j]);
  }

  lemma ConversationAtClose(setup: Setup, id: string, log: seq<Event>, i: nat, m: nat)
    requires i < m <= |log| && OpensBatch(setup, id, log, i)
    requires !Run(setup, Initial(id), log[..m]).ShuttingDown?
    requires ClosedBy(log[i].event.response.toolCalls, log[i + 1..m])
    ensures var response := log[i].event.response;
            Run(setup, Initial(id), log[..m]).conversation.messages
            == Run(setup, Initial(id), log[..i]).conversation.messages + [response.message]
               + Answers(response.toolCalls, Completions(log[i + 1..m]))
  {
    var since := log[i + 1..m];
    ResponseOpensBatch(setup, id, log, i);
    var start := Run(setup, Initial(id), log[..i + 1]);
    assert log[..m] == log[..i + 1] + since;
    RunSplit(setup, Initial(id), log[..i + 1], since);
    RunOnlyAppends(setup, start, since);
    BatchCloses(setup, start.conversation, log[i].event.response.toolCalls, since);
  }

  lemma StateWhileOpen(setup: Setup, id: string, log: seq<Event>, i: nat, j: nat)
    requires i < j <= |log| && OpensBatch(setup, id, log, i)
    requires !Run(setup, Initial(id), log[..j]).ShuttingDown?
    requires !Answered(log[i].event.response.toolCalls, Completions(log[i + 1..j]))
    ensures var response := log[i].event.response;
            var base := Run(setup, Initial(id), log[..i]).conversation.messages + [response.message];
            Run(setup, Initial(id), log[..j])
            == ExecutingTools(Context(id, base), Statuses(response.toolCalls, Completions(log[i + 1..j])))
  {
    var since := log[i + 1..j];
    ResponseOpensBatch(setup, id, log, i);
    var start := Run(setup, Initial(id), log[..i + 1]);
    assert log[..j] == log[..i + 1] + since;
    RunSplit(setup, Initial(id), log[..i + 1], since);
    RunOnlyAppends(setup, start, since);
    BatchStaysOpen(setup, start.conversation, log[i].event.response.toolCalls, since);
  }

  lemma ClosingAnswers(setup: Setup, id: string, log: seq<Event>, i: nat, j: nat, k: nat)
    requires i + 1 + k <= j <= |log| && OpensBatch(setup, id, log, i)
    requires !Run(setup, Initial(id), log[..j]).ShuttingDown?
    requires ClosedBy(log[i].event.response.toolCalls, log[i + 1..i + 1 + k])
    ensures var response := log[i].event.response;
            var base := Run(setup, Initial(id), log[..i]).conversation.messages + [response.message];
            AnsweredAt(setup, id, log, i, k, base, response.toolCalls,
                       Run(setup, Initial(id), log[..j]).conversation.messages)
  {
    var m := i + 1 + k;
    ConversationGrows(setup, id, log, m, j);
    ConversationAtClose(setup, id, log, i, m);
  }

  lemma ClosedWithin(setup: Setup, id: string, log: seq<Event>, i: nat, j: nat)
    requires i < j <= |log| && OpensBatch(setup, id, log, i)
    requires !Run(setup, Initial(id), log[..j]).ShuttingDown?
    requires Answered(log[i].event.response.toolCalls, Completions(log[i + 1..j]))
    ensures var response := log[i].event.response;
            var base := Run(setup, Initial(id), log[..i]).conversation.messages + [response.message];
            exists k: nat | i + 1 + k <= j ::
              AnsweredAt(setup, id, log, i, k, base, response.toolCalls,
                         Run(setup, Initial(id), log[..j]).conversation.messages)
  {
    var k := FindClosing(log[i].event.response.toolCalls, log[i + 1..j]);
    assert log[i + 1..j][..k] == log[i + 1..i + 1 + k];
    ClosingAnswers(setup, id, log, i, j, k);
  }

  /**
   Main result: in every run, a response that asks for tools is followed directly by
   exactly one Tool message per call, in call order, carrying that call's id and the
   last outcome heard for it before the batch closed. Duplicate, unknown and reordered
   completions make no difference beyond that.
   */
  lemma CallResultPairing(setup: Setup, id: string, log: seq<Event>, i: nat, j: nat)
    requires i < j <= |log| && OpensBatch(setup, id, log, i)
    requires !Run(setup, Initial(id), log[..j]).ShuttingDown?
    ensures var response, heard := log[i].event.response, Completions(log[i + 1..j]);
            var base := Run(setup, Initial(id), log[..i]).conversation.messages + [response.message];
            var now := Run(setup, Initial(id), log[..j]);
            if !Answered(response.toolCalls, heard)
            then now == ExecutingTools(Context(id, base), Statuses(response.toolCalls, heard))
            else exists k: nat | i + 1 + k <= j ::
              AnsweredAt(setup, id, log, i, k, base, response.toolCalls, now.conversation.messages)
  {
    if !Answered(log[i].event.response.toolCalls, Completions(log[i + 1..j])) {
      StateWhileOpen(setup, id, log, i, j);
    } else {
      ClosedWithin(setup, id, log, i, j);
    }
  }

  // ----- Completion order

  lemma OutcomesDecide(setup: Setup, c: Context, calls: seq<ToolCall>, xs: seq<Event>, ys: seq<Event>)
    requires ShutdownRequested !in xs && ShutdownRequested !in ys
    requires ClosedBy(calls, xs) && ClosedBy(calls, ys)
    requires forall call | call in calls ::
               LastHeard(Completions(xs), call.id) == LastHeard(Completions(ys), call.id)
    ensures var s := ExecutingTools(c, StartExecutions(calls));
            && Run(setup, s, xs) == Run(setup, s, ys)
            && LastAction(setup, s, xs) == LastAction(setup, s, ys)
  {
    BatchCloses(setup, c, calls, xs);
    BatchCloses(setup, c, calls, ys);
    var hx, hy := Completions(xs), Completions(ys);
    assert Answers(calls, hx) == Answers(calls, hy);
    assert DoneTools(calls, hx) == DoneTools(calls, hy);
  }

  predicate DistinctIds(xs: seq<Completion>) {
    forall i, j | 0 <= i < j < |xs| :: xs[i].callId != xs[j].callId
  }

  predicate Asked(calls: seq<ToolCall>, callId: string) {
    exists call | call in calls :: call.id == callId
  }

  predicate Reported(xs: seq<Completion>, callId: string) {
    exists x | x in xs :: x.callId == callId
  }

  /** One completion for each call and no others. */
  ghost predicate OnePerCall(calls: seq<ToolCall>, xs: seq<Completion>) {
    && DistinctIds(xs)
    && (forall callId :: Asked(calls, callId) <==> Reported(xs, callId))
  }

  function AsEvents(xs: seq<Completion>): (r: seq<Event>)
    ensures |r| == |xs|
  {
    seq(|xs|, i requires 0 <= i < |xs| => ToolCompleted(xs[i].callId, xs[i].outcome))
  }

  lemma {:induction false} CompletionsOfEvents(xs: seq<Completion>)
    ensures Completions(AsEvents(xs)) == xs
  {
    if xs != [] {
      assert AsEvents(xs)[..|xs| - 1] == AsEvents(xs[..|xs| - 1]);
      CompletionsOfEvents(xs[..|xs| - 1]);
    }
  }

  /** With distinct ids, what was heard does not depend on the order. */
  lemma {:induction false} HeardIffPresent(xs: seq<Completion>, callId: string, outcome: Outcome)
    requires DistinctIds(xs)
    ensures LastHeard(xs, callId) == Some(outcome) <==> Completion(callId, outcome) in xs
  {
    if xs != [] {
      HeardIffPresent(xs[..|xs| - 1], callId, outcome);
      assert xs == xs[..|xs| - 1] + [xs[|xs| - 1]];
    }
  }

  lemma {:induction false} DistinctIdsOccurOnce(xs: seq<Completion>, v: Completion)
    requires DistinctIds(xs)
    ensures multiset(xs)[v] <= 1
  {
    if xs != [] {
      var before := xs[..|xs| - 1];
      DistinctIdsOccurOnce(before, v);
      assert xs == before + [xs[|xs| - 1]];
      assert xs[|xs| - 1] !in before;
    }
  }

  lemma PermutedIdsStayDistinct(xs: seq<Completion>, ys: seq<Completion>)
    requires DistinctIds(xs) && multiset(xs) == multiset(ys)
    ensures DistinctIds(ys)
  {
    forall i, j | 0 <= i < j < |ys| ensures ys[i].callId != ys[j].callId {
      assert ys[i] in multiset(xs) && ys[j] in multiset(xs);
      DistinctIdsOccurOnce(xs, ys[i]);
      assert ys == ys[..i] + [ys[i]] + ys[i + 1..j] + [ys[j]] + ys[j + 1..];
      assert ys[i] == ys[j] ==> multiset(ys)[ys[i]] >= 2;
    }
  }

  lemma ReportedIffHeard(xs: seq<Completion>, callId: string)
    requires DistinctIds(xs)
    ensures Reported(xs, callId) <==> LastHeard(xs, callId).Some?
  {
    if Reported(xs, callId) {
      var x :| x in xs && x.callId == callId;
      HeardIffPresent(xs, callId, x.outcome);
    }
    if LastHeard(xs, callId).Some? {
      HeardIffPresent(xs, callId, LastHeard(xs, callId).value);
      assert Completion(callId, LastHeard(xs, callId).value) in xs;
    }
  }

  lemma OnePerCallCloses(calls: seq<ToolCall>, xs: seq<Completion>)
    requires calls != [] && OnePerCall(calls, xs)
    ensures ClosedBy(calls, AsEvents(xs))
  {
    CompletionsOfEvents(xs);
    forall call | call in calls ensures LastHeard(xs, call.id).Some? {
      assert Asked(calls, call.id);
      ReportedIffHeard(xs, call.id);
    }
    assert calls[0] in calls;
    var before, last := xs[..|xs| - 1], xs[|xs| - 1];
    assert AsEvents(xs)[..|xs| - 1] == AsEvents(before);
    CompletionsOfEvents(before);
    assert last in xs && Reported(xs, last.callId) && Asked(calls, last.callId);
    assert !Reported(before, last.callId);
    ReportedIffHeard(before, last.callId);
    var call :| call in calls && call.id == last.callId;
    assert LastHeard(before, call.id).None?;
  }

  lemma PermutedCompletionsHeardAlike(xs: seq<Completion>, ys: seq<Completion>, callId: string)
    requires DistinctIds(xs) && DistinctIds(ys) && multiset(xs) == multiset(ys)
    ensures LastHeard(xs, callId) == LastHeard(ys, callId)
    ensures Reported(xs, callId) <==> Reported(ys, callId)
  {
    assert forall x :: x in xs <==> x in multiset(xs);
    assert forall x :: x in ys <==> x in multiset(ys);
    ReportedIffHeard(xs, callId);
    ReportedIffHeard(ys, callId);
    if LastHeard(xs, callId).Some? {
      HeardIffPresent(xs, callId, LastHeard(xs, callId).value);
      HeardIffPresent(ys, callId, LastHeard(xs, callId).value);
    }
    if LastHeard(ys, callId).Some? {
      HeardIffPresent(xs, callId, LastHeard(ys, callId).value);
      HeardIffPresent(ys, callId, LastHeard(ys, callId).value);
    }
  }

  /**
   Main result: for a batch with one completion per call, every order of the
   completions ends in the same state, conversation and final action.
   */
  lemma CompletionOrderIrrelevant(setup: Setup, c: Context, calls: seq<ToolCall>,
                                  xs: seq<Completion>, ys: seq<Completion>)
    requires calls != [] && OnePerCall(calls, xs)
    requires multiset(xs) == multiset(ys)
    ensures AsEvents(xs) != [] && AsEvents(ys) != []
    ensures var s := ExecutingTools(c, StartExecutions(calls));
            && !Run(setup, s, AsEvents(xs)).ExecutingTools?
            && Run(setup, s, AsEvents(xs)) == Run(setup, s, AsEvents(ys))
            && LastAction(setup, s, AsEvents(xs)) == LastAction(setup, s, AsEvents(ys))
  {
    PermutedIdsStayDistinct(xs, ys);
    forall callId: string
      ensures LastHeard(xs, callId) == LastHeard(ys, callId)
      ensures Reported(xs, callId) <==> Reported(ys, callId)
    {
      PermutedCompletionsHeardAlike(xs, ys, callId);
    }
    OnePerCallCloses(calls, xs);
    OnePerCallCloses(calls, ys);
    CompletionsOfEvents(xs);
    CompletionsOfEvents(ys);
    BatchCloses(setup, c, calls, AsEvents(xs));
    OutcomesDecide(setup, c, calls, AsEvents(xs), AsEvents(ys));
  }
}
