/** Conversions between the messages of a running session and those of a persisted thread. */
module AcpBridge {
  import opened Conversation

  datatype SnapshotRole = SystemRole | UserRole | AssistantRole | ToolRole

  datatype CallSnapshot = CallSnapshot(id: string, toolName: string, arguments: string)

  datatype Snapshot = Snapshot(
    role: SnapshotRole,
    content: string,
    toolCallId: Option<string>,
    toolName: Option<string>,
    toolCalls: Option<seq<CallSnapshot>>)

  function RoleToSnapshot(r: Role): SnapshotRole {
    match r
    case System => SystemRole
    case User => UserRole
    case Assistant => AssistantRole
    case Tool => ToolRole
  }

  function SnapshotToRole(r: SnapshotRole): Role {
    match r
    case SystemRole => System
    case UserRole => User
    case AssistantRole => Assistant
    case ToolRole => Tool
  }

  function CallsToSnapshots(calls: seq<ToolCall>): (r: seq<CallSnapshot>)
    ensures |r| == |calls|
  {
    seq(|calls|, i requires 0 <= i < |calls| => CallSnapshot(calls[i].id, calls[i].toolName, calls[i].arguments))
  }

  function SnapshotsToCalls(calls: seq<CallSnapshot>): (r: seq<ToolCall>)
    ensures |r| == |calls|
  {
    seq(|calls|, i requires 0 <= i < |calls| => ToolCall(calls[i].id, calls[i].toolName, calls[i].arguments))
  }

  /** A message without calls is stored without a call list. */
  function MessageToSnapshot(m: Message): Snapshot {
    Snapshot(RoleToSnapshot(m.role), m.content, m.toolCallId, m.name,
             if m.toolCalls == [] then None else Some(CallsToSnapshots(m.toolCalls)))
  }

  function SnapshotToMessage(s: Snapshot): Message {
    Message(SnapshotToRole(s.role), s.content, s.toolCallId, s.toolName,
            if s.toolCalls.None? then [] else SnapshotsToCalls(s.toolCalls.value))
  }

  function ThreadToMessages(snapshots: seq<Snapshot>): (r: seq<Message>)
    ensures |r| == |snapshots|
  {
    seq(|snapshots|, i requires 0 <= i < |snapshots| => SnapshotToMessage(snapshots[i]))
  }

  /** Storing a message and reading it back gives the same message. */
  lemma SnapshotRoundTrip(m: Message)
    ensures SnapshotToMessage(MessageToSnapshot(m)) == m
  {
    assert SnapshotsToCalls(CallsToSnapshots(m.toolCalls)) == m.toolCalls;
  }

  /** The other way round, only an empty call list is not reproduced. */
  lemma MessageRoundTripIff(s: Snapshot)
    ensures MessageToSnapshot(SnapshotToMessage(s)) == s <==> s.toolCalls != Some([])
  {
    if s.toolCalls.Some? {
      assert CallsToSnapshots(SnapshotsToCalls(s.toolCalls.value)) == s.toolCalls.value;
    }
  }

  /** A snapshot says what its message says, field by field. */
  lemma SnapshotSaysTheSame(m: Message)
    ensures var s := MessageToSnapshot(m);
            && (s.role == SystemRole <==> m.role == System) && (s.role == UserRole <==> m.role == User)
            && (s.role == AssistantRole <==> m.role == Assistant) && (s.role == ToolRole <==> m.role == Tool)
            && s.content == m.content && s.toolCallId == m.toolCallId && s.toolName == m.name
            && (s.toolCalls.None? <==> m.toolCalls == [])
            && (s.toolCalls.Some? ==>
                  && |s.toolCalls.value| == |m.toolCalls|
                  && forall i | 0 <= i < |m.toolCalls| ::
                       var c, call := s.toolCalls.value[i], m.toolCalls[i];
                       c.id == call.id && c.toolName == call.toolName && c.arguments == call.arguments)
  {
  }

  lemma RebuildAppend(a: seq<Snapshot>, b: seq<Snapshot>)
    ensures ThreadToMessages(a + b) == ThreadToMessages(a) + ThreadToMessages(b)
  {
  }
}
