/**
 The ACP prompt loop: two histories of one conversation, the messages sent to the LLM
 and the snapshots of the persisted thread, pushed side by side through every exit.

 What happens outside a prompt is a script of turns, one per call of the LLM. A prompt
 whose script ends has not returned yet. A session is out of the map while its prompt
 runs, so nothing can change its cancel flag during a prompt.
 */
module AcpSession {
  import opened Conversation
  import opened AgentState
  import opened AcpBridge

  datatype Thread = Thread(id: string, snapshots: seq<Snapshot>, version: nat)

  datatype Session = Session(sessionId: string, thread: Thread, messages: seq<Message>, cancelled: bool)

  /** A stream event, and whether the client took the chunk. */
  datatype Item = Item(event: LlmEvent, delivered: bool)

  /** One round of the loop: a refused call or a stream, and the tools' results. */
  datatype Turn = Turn(refused: Option<string>, items: seq<Item>, results: nat -> string)

  datatype Stop = EndTurn | Cancelled | LlmFailure(error: string) | ChannelClosed | Unfinished

  datatype Reply = Stopped(stop: Stop) | Reply(content: string, calls: seq<ToolCall>)

  // ----- What the loop does

  /** The reply heard on a stream after `content` has been received. */
  function Heard(cancelled: bool, items: seq<Item>, content: string): Reply {
    if items == [] then Reply(content, [])
    else if cancelled then Stopped(Cancelled)
    else match items[0].event
      case TextDelta(text) =>
        if items[0].delivered then Heard(cancelled, items[1..], content + text) else Stopped(ChannelClosed)
      case ToolCallDelta(_, _, _) => Heard(cancelled, items[1..], content)
      case Finished(response) =>
        Reply(if response.message.content != "" then response.message.content else content, response.toolCalls)
      case Failed(e) => Stopped(LlmFailure(e))
  }

  function AssistantMessage(content: string, calls: seq<ToolCall>): Message {
    Message(Assistant, content, None, None, calls)
  }

  function ResultMessage(call: ToolCall, result: string): Message {
    Message(Tool, result, Some(call.id), Some(call.toolName), [])
  }

  function Results(calls: seq<ToolCall>, results: nat -> string): (r: seq<Message>)
    ensures |r| == |calls|
  {
    seq(|calls|, i requires 0 <= i < |calls| => ResultMessage(calls[i], results(i)))
  }

  /** The reply of one turn, if the turn gets that far. */
  function TurnReply(cancelled: bool, turn: Turn): Reply {
    if turn.refused.Some? then Stopped(LlmFailure(turn.refused.value)) else Heard(cancelled, turn.items, "")
  }

  /** The messages a prompt adds from the given turns on, and how it stops. */
  function Dialogue(cancelled: bool, turns: seq<Turn>): (seq<Message>, Stop) {
    if cancelled then ([], Cancelled)
    else if turns == [] then ([], Unfinished)
    else
      match TurnReply(cancelled, turns[0])
      case Stopped(stop) => ([], stop)
      case Reply(content, calls) =>
        var block := [AssistantMessage(content, calls)] + Results(calls, turns[0].results);
        if calls == [] then (block, EndTurn) else
          var (rest, stop) := Dialogue(cancelled, turns[1..]);
          (block + rest, stop)
  }

  function Pushed(s: Session, m: Message): Session {
    s.(messages := s.messages + [m], thread := s.thread.(snapshots := s.thread.snapshots + [MessageToSnapshot(m)]))
  }

  function PushedAll(s: Session, ms: seq<Message>): Session {
    if ms == [] then s else Pushed(PushedAll(s, ms[..|ms| - 1]), ms[|ms| - 1])
  }

  lemma {:induction false} PushedAllAppend(s: Session, a: seq<Message>, b: seq<Message>)
    ensures PushedAll(s, a + b) == PushedAll(PushedAll(s, a), b)
  {
    if b == [] {
      assert a + b == a;
    } else {
      assert (a + b)[..|a + b| - 1] == a + b[..|b| - 1];
      PushedAllAppend(s, a, b[..|b| - 1]);
    }
  }

  lemma {:induction false} PushKeepsIds(s: Session, ms: seq<Message>)
    ensures var s' := PushedAll(s, ms);
            s'.sessionId == s.sessionId && s'.thread.id == s.thread.id && s'.cancelled == s.cancelled
  {
    if ms != [] {
      PushKeepsIds(s, ms[..|ms| - 1]);
    }
  }

  method Push(s: Session, m: Message) returns (s': Session)
    ensures s' == Pushed(s, m)
  {
    s' := s.(messages := s.messages + [m]);
    s' := s'.(thread := s'.thread.(snapshots := s'.thread.snapshots + [MessageToSnapshot(m)]));
  }

  method ReadStream(s: Session, items: seq<Item>) returns (reply: Reply)
    ensures reply == Heard(s.cancelled, items, "")
  {
    var content, i := "", 0;
    while i < |items|
      invariant 0 <= i <= |items|
      invariant Heard(s.cancelled, items[i..], content) == Heard(s.cancelled, items, "")
    {
      var item := items[i];
      if s.cancelled {
        return Stopped(Cancelled);
      }
      assert items[i..][1..] == items[i + 1..];
      match item.event {
        case TextDelta(text) =>
          content := content + text;
          if !item.delivered {
            return Stopped(ChannelClosed);
          }
        case ToolCallDelta(_, _, _) =>
        case Finished(response) =>
          if response.message.content != "" {
            content := response.message.content;
          }
          return Reply(content, response.toolCalls);
        case Failed(e) =>
          return Stopped(LlmFailure(e));
      }
      i := i + 1;
    }
    return Reply(content, []);
  }

  method ExecuteTools(s: Session, calls: seq<ToolCall>, results: nat -> string) returns (s': Session)
    ensures s' == PushedAll(s, Results(calls, results))
  {
    s' := s;
    var i := 0;
    while i < |calls|
      invariant 0 <= i <= |calls|
      invariant s' == PushedAll(s, Results(calls, results)[..i])
    {
      s' := Push(s', ResultMessage(calls[i], results(i)));
      assert Results(calls, results)[..i + 1][..i] == Results(calls, results)[..i];
      i := i + 1;
    }
    assert Results(calls, results)[..|calls|] == Results(calls, results);
  }

  method RunPromptLoop(s: Session, turns: seq<Turn>) returns (s': Session, stop: Stop)
    ensures s' == PushedAll(s, Dialogue(s.cancelled, turns).0) && stop == Dialogue(s.cancelled, turns).1
  {
    s' := s;
    ghost var done: seq<Message>, c := [], s.cancelled;
    var i := 0;
    assert turns[0..] == turns && done + Dialogue(c, turns).0 == Dialogue(c, turns).0;
    while i < |turns|
      invariant 0 <= i <= |turns|
      invariant s' == PushedAll(s, done) && s'.cancelled == c
      invariant Dialogue(c, turns) == (done + Dialogue(c, turns[i..]).0, Dialogue(c, turns[i..]).1)
    {
      var turn := turns[i];
      assert done + [] == done;
      if s'.cancelled {
        return s', Cancelled;
      }
      if turn.refused.Some? {
        return s', LlmFailure(turn.refused.value);
      }
      var reply := ReadStream(s', turn.items);
      if reply.Stopped? {
        return s', reply.stop;
      }
      var assistant := AssistantMessage(reply.content, reply.calls);
      ghost var block := [assistant] + Results(reply.calls, turn.results);
      s' := Push(s', assistant);
      assert s' == PushedAll(s, done + [assistant]) by {
        assert (done + [assistant])[..|done|] == done;
      }
      if reply.calls == [] {
        assert block == [assistant];
        return s', EndTurn;
      }
      PushKeepsIds(s', Results(reply.calls, turn.results));
      s' := ExecuteTools(s', reply.calls, turn.results);
      PushedAllAppend(s, done + [assistant], Results(reply.calls, turn.results));
      assert turns[i..][1..] == turns[i + 1..];
      assert done + (block + Dialogue(c, turns[i + 1..]).0) == (done + block) + Dialogue(c, turns[i + 1..]).0;
      assert (done + [assistant]) + Results(reply.calls, turn.results) == done + block;
      done := done + block;
      i := i + 1;
    }
    assert done + [] == done;
    return s', if s'.cancelled then Cancelled else Unfinished;
  }

  // ----- What is heard on a stream

  /** The stream goes on after this event. */
  predicate Passes(item: Item) {
    item.event.ToolCallDelta? || (item.event.TextDelta? && item.delivered)
  }

  function Texts(items: seq<Item>): string {
    if items == [] then "" else
      var last := items[|items| - 1].event;
      Texts(items[..|items| - 1]) + if last.TextDelta? then last.content else ""
  }

  /** The reply if `item` is the first that does not pass and `text` was heard before. */
  function Ending(item: Item, text: string): Reply
    requires !Passes(item)
  {
    match item.event
    case TextDelta(_) => Stopped(ChannelClosed)
    case Finished(response) =>
      Reply(if response.message.content == "" then text else response.message.content, response.toolCalls)
    case Failed(e) => Stopped(LlmFailure(e))
  }

  /** The first event that does not pass decides the reply, and all text before it is heard. */
  lemma {:induction false} FirstEndingDecides(items: seq<Item>, k: nat)
    requires k <= |items| && (forall i | 0 <= i < k :: Passes(items[i]))
    requires k < |items| ==> !Passes(items[k])
    ensures Heard(false, items, "") ==
            if k < |items| then Ending(items[k], Texts(items[..k])) else Reply(Texts(items), [])
  {
    assert items[0..] == items && items[..0] == [];
    HeardSoFar(items, k);
    assert items[k..] == if k < |items| then [items[k]] + items[k + 1..] else [];
    assert items[..|items|] == items;
  }

  lemma {:induction false} HeardSoFar(items: seq<Item>, k: nat)
    requires k <= |items| && (forall i | 0 <= i < k :: Passes(items[i]))
    ensures Heard(false, items, "") == Heard(false, items[k..], Texts(items[..k]))
  {
    if k == 0 {
      assert items[0..] == items && items[..0] == [];
    } else {
      HeardSoFar(items, k - 1);
      assert items[k - 1..][0] == items[k - 1] && items[k - 1..][1..] == items[k..];
      assert items[..k][..k - 1] == items[..k - 1] && items[..k][k - 1] == items[k - 1];
      assert Passes(items[k - 1]);
      assert Texts(items[..k - 1]) + "" == Texts(items[..k - 1]);
    }
  }

  /** A prompt stops as cancelled exactly if its session was cancelled before, and then adds nothing. */
  lemma {:induction false} CancelledIffFlagged(cancelled: bool, turns: seq<Turn>)
    ensures Dialogue(cancelled, turns).1 == Cancelled <==> cancelled
    ensures cancelled ==> Dialogue(cancelled, turns).0 == []
  {
    if !cancelled && turns != [] {
      UncancelledStream(turns[0].items, "");
      CancelledIffFlagged(cancelled, turns[1..]);
    }
  }

  lemma {:induction false} UncancelledStream(items: seq<Item>, content: string)
    ensures Heard(false, items, content) != Stopped(Cancelled)
  {
    if items != [] {
      UncancelledStream(items[1..], content);
      if items[0].event.TextDelta? {
        UncancelledStream(items[1..], content + items[0].event.content);
      }
    }
  }

  // ----- How a dialogue goes on and ends

  predicate Replies(turn: Turn) {
    TurnReply(false, turn).Reply?
  }

  predicate AsksForTools(turn: Turn) {
    Replies(turn) && TurnReply(false, turn).calls != []
  }

  /** The assistant's message of a turn. */
  function Said(turn: Turn): Message
    requires Replies(turn)
  {
    var reply := TurnReply(false, turn);
    Message(Assistant, reply.content, None, None, reply.calls)
  }

  /** The results of the first `n` calls, as they are. */
  function Reported(calls: seq<ToolCall>, results: nat -> string, n: nat): (r: seq<Message>)
    requires n <= |calls|
    ensures |r| == n && forall m | m in r :: m.role == Tool
  {
    if n == 0 then [] else
      var call := calls[n - 1];
      Reported(calls, results, n - 1) + [Message(Tool, results(n - 1), Some(call.id), Some(call.toolName), [])]
  }

  /** The assistant's message and, per call and in call order, the tool's result. */
  function Exchange(turn: Turn): seq<Message>
    requires Replies(turn)
  {
    var calls := TurnReply(false, turn).calls;
    [Said(turn)] + Reported(calls, turn.results, |calls|)
  }

  /** The exchanges of the first `k` turns. */
  function Exchanges(turns: seq<Turn>, k: nat): seq<Message>
    requires k <= |turns| && forall i | 0 <= i < k :: AsksForTools(turns[i])
  {
    if k == 0 then [] else
      assert AsksForTools(turns[k - 1]);
      Exchanges(turns, k - 1) + Exchange(turns[k - 1])
  }

  /** Turn `k` is the first that does not ask for tools, or there is none. */
  predicate FirstWithoutTools(turns: seq<Turn>, k: nat) {
    && k <= |turns| && (forall i | 0 <= i < k :: AsksForTools(turns[i]))
    && (k < |turns| ==> !AsksForTools(turns[k]))
  }

  lemma {:induction false} ExchangeIsBlock(turn: Turn)
    requires Replies(turn)
    ensures var reply := TurnReply(false, turn);
            [AssistantMessage(reply.content, reply.calls)] + Results(reply.calls, turn.results) == Exchange(turn)
  {
    var calls := TurnReply(false, turn).calls;
    ResultsAreReported(calls, turn.results, |calls|);
    assert Results(calls, turn.results)[..|calls|] == Results(calls, turn.results);
  }

  lemma {:induction false} ResultsAreReported(calls: seq<ToolCall>, results: nat -> string, n: nat)
    requires n <= |calls|
    ensures Results(calls, results)[..n] == Reported(calls, results, n)
  {
    if n > 0 {
      ResultsAreReported(calls, results, n - 1);
      assert Results(calls, results)[n - 1] == ResultMessage(calls[n - 1], results(n - 1));
      assert Results(calls, results)[..n] == Results(calls, results)[..n - 1] + [Results(calls, results)[n - 1]];
    }
  }

  /** As long as turns ask for tools, their exchanges are in both histories and the LLM is called again. */
  lemma {:induction false} DialogueSoFar(turns: seq<Turn>, k: nat)
    requires k <= |turns| && (forall i | 0 <= i < k :: AsksForTools(turns[i]))
    ensures Dialogue(false, turns).0 == Exchanges(turns, k) + Dialogue(false, turns[k..]).0
    ensures Dialogue(false, turns).1 == Dialogue(false, turns[k..]).1
  {
    if k == 0 {
      assert turns[0..] == turns;
      assert [] + Dialogue(false, turns).0 == Dialogue(false, turns).0;
    } else {
      DialogueSoFar(turns, k - 1);
      assert turns[k - 1..][0] == turns[k - 1] && turns[k - 1..][1..] == turns[k..];
      ExchangeIsBlock(turns[k - 1]);
      var before, this', rest := Exchanges(turns, k - 1), Exchange(turns[k - 1]), Dialogue(false, turns[k..]).0;
      assert before + (this' + rest) == (before + this') + rest;
    }
  }

  /**
   Main result: a dialogue consists of the exchanges of the turns that ask for tools, up to
   the first that does not. If that one replies, its message ends the turn; if it does not,
   the reason it stopped for ends the prompt; if there is none, the prompt goes on.
   */
  lemma {:induction false} DialogueIs(turns: seq<Turn>, k: nat)
    requires FirstWithoutTools(turns, k)
    ensures Dialogue(false, turns) ==
            if k == |turns| then (Exchanges(turns, k), Unfinished)
            else if Replies(turns[k]) then (Exchanges(turns, k) + [Said(turns[k])], EndTurn)
            else (Exchanges(turns, k), TurnReply(false, turns[k]).stop)
  {
    DialogueSoFar(turns, k);
    assert Exchanges(turns, k) + [] == Exchanges(turns, k);
    if k < |turns| {
      assert turns[k..][0] == turns[k];
      if Replies(turns[k]) {
        ExchangeIsBlock(turns[k]);
        assert Exchange(turns[k]) == [Said(turns[k])];
      }
    }
  }

  lemma {:induction false} FindFirstWithoutTools(turns: seq<Turn>) returns (k: nat)
    ensures FirstWithoutTools(turns, k)
  {
    k := 0;
    while k < |turns| && AsksForTools(turns[k])
      invariant k <= |turns| && forall i | 0 <= i < k :: AsksForTools(turns[i])
    {
      k := k + 1;
    }
  }

  /** All turns before `k` ask for tools, and turn `k` replies without. */
  predicate EndsAt(turns: seq<Turn>, k: nat) {
    k < |turns| && FirstWithoutTools(turns, k) && Replies(turns[k])
  }

  lemma {:induction false} EndTurnIff(turns: seq<Turn>)
    ensures Dialogue(false, turns).1 == EndTurn <==> exists k: nat :: EndsAt(turns, k)
  {
    var k := FindFirstWithoutTools(turns);
    DialogueIs(turns, k);
    if j: nat :| EndsAt(turns, j) {
      assert j == k;
    }
    if k < |turns| && !Replies(turns[k]) {
      NoStreamEndsTurn(turns[k].items, "");
    }
    if k < |turns| && Replies(turns[k]) {
      assert EndsAt(turns, k);
    }
  }

  lemma {:induction false} NoStreamEndsTurn(items: seq<Item>, content: string)
    ensures Heard(false, items, content) != Stopped(EndTurn)
  {
    if items != [] {
      NoStreamEndsTurn(items[1..], content);
      if items[0].event.TextDelta? {
        NoStreamEndsTurn(items[1..], content + items[0].event.content);
      }
    }
  }

  function AssistantsOf(ms: seq<Message>): seq<Message> {
    if ms == [] then [] else
      var before, last := AssistantsOf(ms[..|ms| - 1]), ms[|ms| - 1];
      if last.role == Assistant then before + [last] else before
  }

  lemma {:induction false} AssistantsAppend(a: seq<Message>, b: seq<Message>)
    ensures AssistantsOf(a + b) == AssistantsOf(a) + AssistantsOf(b)
  {
    if b == [] {
      assert a + b == a;
    } else {
      assert (a + b)[..|a + b| - 1] == a + b[..|b| - 1];
      AssistantsAppend(a, b[..|b| - 1]);
    }
  }

  lemma {:induction false} NoAssistants(ms: seq<Message>)
    requires forall m | m in ms :: m.role != Assistant
    ensures AssistantsOf(ms) == []
  {
    if ms != [] {
      assert ms[|ms| - 1] in ms && forall m | m in ms[..|ms| - 1] :: m in ms;
      NoAssistants(ms[..|ms| - 1]);
    }
  }

  lemma {:induction false} ExchangesSay(turns: seq<Turn>, k: nat)
    requires k <= |turns| && forall i | 0 <= i < k :: AsksForTools(turns[i])
    ensures |AssistantsOf(Exchanges(turns, k))| == k
    ensures forall i | 0 <= i < k :: AsksForTools(turns[i]) && AssistantsOf(Exchanges(turns, k))[i] == Said(turns[i])
  {
    if k > 0 {
      ExchangesSay(turns, k - 1);
      AssistantsAppend(Exchanges(turns, k - 1), Exchange(turns[k - 1]));
      ExchangeSays(turns[k - 1]);
    }
  }

  lemma {:induction false} ExchangeSays(turn: Turn)
    requires Replies(turn)
    ensures AssistantsOf(Exchange(turn)) == [Said(turn)]
  {
    var calls := TurnReply(false, turn).calls;
    var results := Reported(calls, turn.results, |calls|);
    NoAssistants(results);
    AssistantsAppend([Said(turn)], results);
    SayingMore([], Said(turn));
    assert [] + [Said(turn)] == [Said(turn)];
  }

  /** There are as many assistant messages as turns that replied, and message `i` is what turn `i` replied. */
  lemma {:induction false} AssistantsAreReplies(turns: seq<Turn>, k: nat, i: nat)
    requires FirstWithoutTools(turns, k)
    ensures var said := AssistantsOf(Dialogue(false, turns).0);
            var n := if k < |turns| && Replies(turns[k]) then k + 1 else k;
            |said| == n && (i < n ==> Replies(turns[i]) && said[i] == Said(turns[i]))
  {
    DialogueIs(turns, k);
    ExchangesSay(turns, k);
    if k < |turns| && Replies(turns[k]) {
      SayingMore(Exchanges(turns, k), Said(turns[k]));
    }
  }

  lemma {:induction false} SayingMore(ms: seq<Message>, m: Message)
    requires m.role == Assistant
    ensures AssistantsOf(ms + [m]) == AssistantsOf(ms) + [m]
  {
    assert (ms + [m])[..|ms|] == ms;
  }

  // ----- Well-formed histories

  predicate IsResultOf(m: Message, call: ToolCall) {
    m.role == Tool && m.toolCallId == Some(call.id) && m.name == Some(call.toolName) && m.toolCalls == []
  }

  /** User messages, and assistant messages each followed by exactly the results of its calls, in order. */
  predicate Paired(ms: seq<Message>) {
    if ms == [] then true
    else if ms[0].role == User then ms[0].toolCalls == [] && Paired(ms[1..])
    else
      var calls := ms[0].toolCalls;
      && ms[0].role == Assistant
      && |calls| < |ms|
      && (forall k | 0 <= k < |calls| :: IsResultOf(ms[1 + k], calls[k]))
      && Paired(ms[1 + |calls|..])
  }

  lemma {:induction false} PairedAppend(a: seq<Message>, b: seq<Message>)
    requires Paired(a) && Paired(b)
    ensures Paired(a + b)
  {
    if a == [] {
      assert a + b == b;
    } else {
      var n := if a[0].role == User then 1 else 1 + |a[0].toolCalls|;
      PairedAppend(a[n..], b);
      assert (a + b)[n..] == a[n..] + b;
      assert forall j | 0 <= j < n :: (a + b)[j] == a[j];
    }
  }

  /** In a paired history each assistant message is followed by the results of its calls. */
  lemma {:induction false} CallsHaveResults(ms: seq<Message>, i: nat)
    requires Paired(ms) && i < |ms| && ms[i].role == Assistant
    ensures i + |ms[i].toolCalls| < |ms|
    ensures forall k | 0 <= k < |ms[i].toolCalls| :: IsResultOf(ms[i + 1 + k], ms[i].toolCalls[k])
  {
    var n := if ms[0].role == User then 1 else 1 + |ms[0].toolCalls|;
    if i >= n {
      var rest := ms[n..];
      assert rest[i - n] == ms[i];
      CallsHaveResults(rest, i - n);
      forall k | 0 <= k < |ms[i].toolCalls| ensures IsResultOf(ms[i + 1 + k], ms[i].toolCalls[k]) {
        assert rest[i - n + 1 + k] == ms[i + 1 + k];
      }
    } else {
      assert i > 0 ==> IsResultOf(ms[1 + (i - 1)], ms[0].toolCalls[i - 1]);
    }
  }

  /** And every other message is a user's, or the result of a call made before it. */
  lemma {:induction false} ResultsHaveCalls(ms: seq<Message>, i: nat) returns (j: nat)
    requires Paired(ms) && i < |ms| && ms[i].role != Assistant
    ensures ms[i].toolCalls == []
    ensures ms[i].role != User ==>
              && j < i && ms[j].role == Assistant && i - j - 1 < |ms[j].toolCalls|
              && IsResultOf(ms[i], ms[j].toolCalls[i - j - 1])
  {
    var n := if ms[0].role == User then 1 else 1 + |ms[0].toolCalls|;
    if i >= n {
      assert ms[n..][i - n] == ms[i];
      j := ResultsHaveCalls(ms[n..], i - n);
      assert ms[i].role != User ==> ms[n..][j] == ms[n + j];
      j := n + j;
    } else {
      j := 0;
      assert i > 0 ==> IsResultOf(ms[1 + (i - 1)], ms[0].toolCalls[i - 1]);
    }
  }

  lemma {:induction false} DialogueIsPaired(cancelled: bool, turns: seq<Turn>)
    ensures Paired(Dialogue(cancelled, turns).0)
  {
    if !cancelled && turns != [] && TurnReply(cancelled, turns[0]).Reply? {
      var reply := TurnReply(cancelled, turns[0]);
      var results := Results(reply.calls, turns[0].results);
      var block := [AssistantMessage(reply.content, reply.calls)] + results;
      assert block[1 + |reply.calls|..] == [] && Paired([]);
      assert block[0].toolCalls == reply.calls;
      forall k | 0 <= k < |reply.calls| ensures IsResultOf(block[1 + k], reply.calls[k]) {
        assert block[1 + k] == results[k] == ResultMessage(reply.calls[k], turns[0].results(k));
      }
      assert Paired(block);
      if reply.calls != [] {
        DialogueIsPaired(cancelled, turns[1..]);
        PairedAppend(block, Dialogue(cancelled, turns[1..]).0);
      }
    }
  }

  /** The two histories agree and are well formed. */
  predicate InStep(s: Session) {
    s.messages == ThreadToMessages(s.thread.snapshots) && Paired(s.messages)
  }

  lemma {:induction false} PushKeepsHistoriesEqual(s: Session, ms: seq<Message>)
    requires s.messages == ThreadToMessages(s.thread.snapshots)
    ensures var s' := PushedAll(s, ms);
            && s'.messages == ThreadToMessages(s'.thread.snapshots) == s.messages + ms
            && s.thread.snapshots <= s'.thread.snapshots
            && s'.thread.version == s.thread.version
  {
    if ms == [] {
      assert s.messages + ms == s.messages;
    } else {
      var last, before := ms[|ms| - 1], PushedAll(s, ms[..|ms| - 1]);
      PushKeepsHistoriesEqual(s, ms[..|ms| - 1]);
      SnapshotRoundTrip(last);
      RebuildAppend(before.thread.snapshots, [MessageToSnapshot(last)]);
      assert ThreadToMessages([MessageToSnapshot(last)]) == [last];
      assert ms == ms[..|ms| - 1] + [last];
    }
  }
}
