/** `LoomAcpAgent`: live sessions, the thread store, and what both keep over every sequence of calls. */
module AcpAgent {
  import opened Conversation
  import opened AcpBridge
  import opened AcpSession

  datatype Answer = Done(stop: Stop) | SessionNotFound | StoreError

  datatype State = State(sessions: map<string, Session>, store: map<string, Thread>)

  function Opened(id: string, thread: Thread): Session {
    Session(id, thread, ThreadToMessages(thread.snapshots), false)
  }

  function UserMessage(text: string): Message {
    Message(User, text, None, None, [])
  }

  /** The session after a prompt whose loop has returned. */
  function AfterPrompt(s: Session, text: string, turns: seq<Turn>): Session {
    PushedAll(Pushed(s, UserMessage(text)), Dialogue(s.cancelled, turns).0)
  }

  /** How the prompt stops. */
  function StopOf(s: Session, turns: seq<Turn>): Stop {
    Dialogue(s.cancelled, turns).1
  }

  predicate Completes(stop: Stop) {
    stop.EndTurn? || stop.Cancelled?
  }

  function Touched(s: Session): Session {
    s.(thread := s.thread.(version := s.thread.version + 1))
  }

  // ----- The calls

  datatype Call =
    | NewSession(id: string, saves: bool)
    | LoadSession(id: string, loads: bool)
    | Prompt(id: string, text: string, turns: seq<Turn>, saves: bool)
    | Cancel(id: string)

  /** A prompt that has not returned keeps its session out of the map. */
  function Performed(s: State, call: Call): (State, Answer) {
    match call
    case NewSession(id, saves) =>
      if !saves then (s, StoreError) else
        var thread := Thread(id, [], 1);
        (State(s.sessions[id := Opened(id, thread)], s.store[id := thread]), Done(EndTurn))
    case LoadSession(id, loads) =>
      if !loads then (s, StoreError)
      else if id !in s.store then (s, SessionNotFound)
      else (s.(sessions := s.sessions[id := Opened(id, s.store[id])]), Done(EndTurn))
    case Prompt(id, text, turns, saves) =>
      if id !in s.sessions then (s, SessionNotFound) else
        var session, stop := AfterPrompt(s.sessions[id], text, turns), StopOf(s.sessions[id], turns);
        if stop.Unfinished? then (s.(sessions := s.sessions - {id}), Done(stop))
        else if !Completes(stop) then (s.(sessions := s.sessions[id := session]), Done(stop))
        else
          var touched := Touched(session);
          (State(s.sessions[id := touched], if saves then s.store[touched.thread.id := touched.thread] else s.store),
           Done(stop))
    case Cancel(id) =>
      if id !in s.sessions then (s, Done(EndTurn))
      else (s.(sessions := s.sessions[id := s.sessions[id].(cancelled := true)]), Done(EndTurn))
  }

  class LoomAcpAgent {
    var sessions: map<string, Session>
    var store: map<string, Thread>

    ghost function Value(): State
      reads this
    {
      State(sessions, store)
    }

    constructor ()
      ensures Value() == State(map[], map[])
    {
      sessions, store := map[], map[];
    }

    /** Takes the session out of the map while it is worked on. */
    method GetSession(id: string) returns (session: Option<Session>)
      modifies this`sessions
      ensures sessions == old(sessions) - {id}
      ensures session == if id in old(sessions) then Some(old(sessions)[id]) else None
      ensures session.None? ==> sessions == old(sessions)
    {
      if id in sessions {
        session := Some(sessions[id]);
        sessions := sessions - {id};
      } else {
        session := None;
      }
    }

    method PutSession(session: Session)
      modifies this`sessions
      ensures sessions == old(sessions)[session.sessionId := session]
    {
      sessions := sessions[session.sessionId := session];
    }

    method Create(id: string, saves: bool) returns (answer: Answer)
      modifies this
      ensures (Value(), answer) == Performed(old(Value()), NewSession(id, saves))
    {
      var thread := Thread(id, [], 1);
      if !saves {
        return StoreError;
      }
      store := store[id := thread];
      sessions := sessions[id := Session(id, thread, ThreadToMessages(thread.snapshots), false)];
      return Done(EndTurn);
    }

    method Load(id: string, loads: bool) returns (answer: Answer)
      modifies this
      ensures (Value(), answer) == Performed(old(Value()), LoadSession(id, loads))
    {
      if !loads {
        return StoreError;
      }
      if id !in store {
        return SessionNotFound;
      }
      sessions := sessions[id := Session(id, store[id], ThreadToMessages(store[id].snapshots), false)];
      return Done(EndTurn);
    }

    method HandlePrompt(id: string, text: string, turns: seq<Turn>, saves: bool) returns (answer: Answer)
      requires id in sessions ==> sessions[id].sessionId == id
      modifies this
      ensures (Value(), answer) == Performed(old(Value()), Prompt(id, text, turns, saves))
    {
      var taken := GetSession(id);
      if taken.None? {
        return SessionNotFound;
      }
      var session := Push(taken.value, UserMessage(text));
      ghost var start := session;
      var stop: Stop;
      session, stop := RunPromptLoop(session, turns);
      PushKeepsIds(start, Dialogue(start.cancelled, turns).0);
      if stop.Unfinished? {
        return Done(Unfinished);
      }
      if !Completes(stop) {
        PutSession(session);
        assert sessions == old(sessions)[id := session];
        return Done(stop);
      }
      session := session.(thread := session.thread.(version := session.thread.version + 1));
      if saves {
        store := store[session.thread.id := session.thread];
      }
      PutSession(session);
      assert sessions == old(sessions)[id := session];
      return Done(stop);
    }

    method HandleCancel(id: string)
      modifies this
      ensures Value() == Performed(old(Value()), Cancel(id)).0
    {
      if id in sessions {
        sessions := sessions[id := sessions[id].(cancelled := true)];
      }
    }
  }

  // ----- What every run keeps

  /** The session is in step, and what is stored of it is a prefix of it. */
  predicate SoundSession(id: string, session: Session, stored: Thread) {
    && InStep(session)
    && session.sessionId == session.thread.id == id
    && stored.snapshots <= session.thread.snapshots
  }

  predicate SoundThread(id: string, thread: Thread) {
    thread.id == id && Paired(ThreadToMessages(thread.snapshots))
  }

  predicate Sound(s: State) {
    && (forall id | id in s.sessions :: id in s.store && SoundSession(id, s.sessions[id], s.store[id]))
    && (forall id | id in s.store :: SoundThread(id, s.store[id]))
  }

  lemma {:induction false} PromptKeepsInStep(s: Session, text: string, turns: seq<Turn>)
    requires InStep(s)
    ensures var s' := AfterPrompt(s, text, turns);
            && InStep(s') && s'.sessionId == s.sessionId && s'.thread.id == s.thread.id
            && s'.messages == s.messages + [UserMessage(text)] + Dialogue(s.cancelled, turns).0
            && s'.cancelled == s.cancelled
            && s.thread.snapshots <= s'.thread.snapshots
  {
    var user := UserMessage(text);
    PushKeepsHistoriesEqual(s, [user]);
    assert [user][..0] == [];
    assert PushedAll(s, [user]) == Pushed(s, user);
    assert Paired([user]) by {
      assert [user][1..] == [];
    }
    PairedAppend(s.messages, [user]);
    var said := Dialogue(s.cancelled, turns).0;
    PushKeepsHistoriesEqual(Pushed(s, user), said);
    PushKeepsIds(Pushed(s, user), said);
    DialogueIsPaired(s.cancelled, turns);
    PairedAppend(s.messages + [user], said);
  }

  lemma {:induction false} PromptedSessionIsSound(s: State, id: string, text: string, turns: seq<Turn>)
    requires Sound(s) && id in s.sessions
    ensures var after := AfterPrompt(s.sessions[id], text, turns);
            && SoundSession(id, after, s.store[id])
            && SoundSession(id, Touched(after), s.store[id])
            && SoundSession(id, Touched(after), Touched(after).thread)
            && SoundThread(id, Touched(after).thread)
  {
    PromptKeepsInStep(s.sessions[id], text, turns);
  }

  lemma {:induction false} UpdateKeepsSound(s: State, id: string, session: Session, thread: Thread)
    requires Sound(s)
    requires SoundSession(id, session, thread) && SoundThread(id, thread)
    ensures Sound(State(s.sessions[id := session], s.store[id := thread]))
  {
  }

  lemma {:induction false} CallKeepsSound(s: State, call: Call)
    requires Sound(s)
    requires call.NewSession? ==> call.id !in s.store && call.id !in s.sessions
    ensures Sound(Performed(s, call).0)
  {
    match call {
      case NewSession(id, saves) =>
        UpdateKeepsSound(s, id, Opened(id, Thread(id, [], 1)), Thread(id, [], 1));
      case LoadSession(id, loads) =>
        if id in s.store {
          UpdateKeepsSound(s, id, Opened(id, s.store[id]), s.store[id]);
          assert s.store[id := s.store[id]] == s.store;
        }
      case Prompt(id, text, turns, saves) =>
        if id in s.sessions {
          PromptKeepsSound(s, id, text, turns, saves);
        }
      case Cancel(id) =>
        if id in s.sessions {
          UpdateKeepsSound(s, id, s.sessions[id].(cancelled := true), s.store[id]);
          assert s.store[id := s.store[id]] == s.store;
        }
    }
  }

  lemma {:induction false} PromptKeepsSound(s: State, id: string, text: string, turns: seq<Turn>, saves: bool)
    requires Sound(s) && id in s.sessions
    ensures Sound(Performed(s, Prompt(id, text, turns, saves)).0)
  {
    PromptedSessionIsSound(s, id, text, turns);
    var after, stop := AfterPrompt(s.sessions[id], text, turns), StopOf(s.sessions[id], turns);
    if !stop.Unfinished? {
      assert s.store[id := s.store[id]] == s.store;
      if !Completes(stop) {
        UpdateKeepsSound(s, id, after, s.store[id]);
      } else if saves {
        UpdateKeepsSound(s, id, Touched(after), Touched(after).thread);
      } else {
        UpdateKeepsSound(s, id, Touched(after), s.store[id]);
      }
    }
  }

  function Run(calls: seq<Call>): State {
    if calls == [] then State(map[], map[]) else Performed(Run(calls[..|calls| - 1]), calls[|calls| - 1]).0
  }

  /** New sessions get ids that are not in use. */
  predicate FreshIds(calls: seq<Call>) {
    forall i | 0 <= i < |calls| && calls[i].NewSession? ::
      calls[i].id !in Run(calls[..i]).store && calls[i].id !in Run(calls[..i]).sessions
  }

  /**
   Main result: over every sequence of calls, each live session's messages are the ones
   rebuilt from its thread, and each assistant message with calls is followed by exactly
   its results in call order, however the prompts ended.
   */
  lemma {:induction false} HistoriesStayInStep(calls: seq<Call>)
    requires FreshIds(calls)
    ensures Sound(Run(calls))
  {
    if calls != [] {
      var n := |calls| - 1;
      assert forall i | 0 <= i < n :: calls[..n][..i] == calls[..i] && calls[..n][i] == calls[i];
      HistoriesStayInStep(calls[..n]);
      CallKeepsSound(Run(calls[..n]), calls[n]);
    }
  }

  /** A prompt that completes and is saved can be loaded again with the same messages. */
  lemma {:induction false} SavedPromptReloads(s: State, id: string, text: string, turns: seq<Turn>)
    requires Sound(s) && id in s.sessions && Completes(StopOf(s.sessions[id], turns))
    ensures var after := Performed(s, Prompt(id, text, turns, true)).0;
            var loaded := Performed(after, LoadSession(id, true)).0;
            && id in after.sessions && id in loaded.sessions
            && loaded.sessions[id].messages == after.sessions[id].messages
                 == s.sessions[id].messages + [UserMessage(text)] + Dialogue(s.sessions[id].cancelled, turns).0
            && loaded.sessions[id].thread == after.sessions[id].thread
  {
    PromptKeepsInStep(s.sessions[id], text, turns);
  }

  /** A prompt that fails keeps what was said in memory, and only there. */
  lemma {:induction false} FailedPromptIsNotStored(s: State, id: string, text: string, turns: seq<Turn>, saves: bool)
    requires Sound(s) && id in s.sessions
    requires !Completes(StopOf(s.sessions[id], turns)) && !StopOf(s.sessions[id], turns).Unfinished?
    ensures var after := Performed(s, Prompt(id, text, turns, saves)).0;
            && after.store == s.store && id in after.sessions
            && after.sessions[id].messages
               == s.sessions[id].messages + [UserMessage(text)] + Dialogue(s.sessions[id].cancelled, turns).0
            && Performed(after, LoadSession(id, true)).0.sessions[id].messages != after.sessions[id].messages
  {
    PromptKeepsInStep(s.sessions[id], text, turns);
    assert |ThreadToMessages(s.store[id].snapshots)| <= |s.sessions[id].messages|;
  }

  // ----- What each call does

  /** Sessions and threads of other ids are as before. */
  ghost predicate OthersKept(s: State, s': State, id: string) {
    && (forall other | other != id :: other in s.sessions <==> other in s'.sessions)
    && (forall other | other != id && other in s.sessions :: s'.sessions[other] == s.sessions[other])
    && (forall other | other != id :: other in s.store <==> other in s'.store)
    && (forall other | other != id && other in s.store :: s'.store[other] == s.store[other])
  }

  /** A new session is empty and stored, unless storing it fails. */
  lemma {:induction false} NewSessionDoes(s: State, id: string, saves: bool)
    ensures var (s', answer) := Performed(s, NewSession(id, saves));
            && (!saves ==> s' == s && answer == StoreError)
            && (saves ==>
                  && answer == Done(EndTurn) && OthersKept(s, s', id)
                  && id in s'.sessions && id in s'.store && s'.store[id] == s'.sessions[id].thread
                  && s'.sessions[id] == Session(id, Thread(id, [], 1), [], false))
  {
  }

  /** A loaded session has the messages of the stored thread, one per snapshot, and is not cancelled. */
  lemma {:induction false} LoadSessionDoes(s: State, id: string, loads: bool)
    ensures var (s', answer) := Performed(s, LoadSession(id, loads));
            && s'.store == s.store && OthersKept(s, s', id)
            && (!loads ==> s' == s && answer == StoreError)
            && (loads && id !in s.store ==> s' == s && answer == SessionNotFound)
            && (loads && id in s.store ==>
                  && answer == Done(EndTurn) && id in s'.sessions
                  && s'.sessions[id].sessionId == id && s'.sessions[id].thread == s.store[id]
                  && !s'.sessions[id].cancelled
                  && |s'.sessions[id].messages| == |s.store[id].snapshots|
                  && forall i | 0 <= i < |s.store[id].snapshots| ::
                       s'.sessions[id].messages[i] == SnapshotToMessage(s.store[id].snapshots[i]))
  {
  }

  /** A prompt adds the user's text and the dialogue to its session, and stores it only if it completes. */
  lemma {:induction false} PromptDoes(s: State, id: string, text: string, turns: seq<Turn>, saves: bool)
    requires id in s.sessions && InStep(s.sessions[id]) && s.sessions[id].sessionId == s.sessions[id].thread.id == id
    ensures var (s', answer) := Performed(s, Prompt(id, text, turns, saves));
            var before, stop := s.sessions[id], Dialogue(s.sessions[id].cancelled, turns).1;
            && answer == Done(stop)
            && (id in s'.sessions <==> stop != Unfinished)
            && (stop != Unfinished ==>
                  var after := s'.sessions[id];
                  && after.messages ==
                     before.messages + [Message(User, text, None, None, [])] + Dialogue(before.cancelled, turns).0
                  && after.messages == ThreadToMessages(after.thread.snapshots)
                  && after.cancelled == before.cancelled
                  && after.thread.version ==
                     before.thread.version + if stop == EndTurn || stop == Cancelled then 1 else 0)
            && (if (stop == EndTurn || stop == Cancelled) && saves
                then id in s'.store && s'.store[id] == s'.sessions[id].thread
                else s'.store == s.store)
  {
    PromptedSessionIs(s.sessions[id], text, turns);
  }

  lemma {:induction false} PromptKeepsOthers(s: State, id: string, text: string, turns: seq<Turn>, saves: bool)
    requires id in s.sessions ==> InStep(s.sessions[id]) && s.sessions[id].thread.id == id
    ensures OthersKept(s, Performed(s, Prompt(id, text, turns, saves)).0, id)
  {
    if id in s.sessions {
      PromptedSessionIs(s.sessions[id], text, turns);
    }
  }

  lemma {:induction false} PromptedSessionIs(before: Session, text: string, turns: seq<Turn>)
    requires InStep(before)
    ensures var after := AfterPrompt(before, text, turns);
            && after.messages ==
               before.messages + [Message(User, text, None, None, [])] + Dialogue(before.cancelled, turns).0
            && after.messages == ThreadToMessages(after.thread.snapshots)
            && after.sessionId == before.sessionId && after.thread.id == before.thread.id
            && after.thread.version == before.thread.version && after.cancelled == before.cancelled
  {
    var user := UserMessage(text);
    PromptKeepsInStep(before, text, turns);
    PushKeepsHistoriesEqual(before, [user]);
    assert [user][..0] == [] && PushedAll(before, [user]) == Pushed(before, user);
    PushKeepsHistoriesEqual(Pushed(before, user), Dialogue(before.cancelled, turns).0);
  }

  /** A prompt on an unknown session changes nothing. */
  lemma {:induction false} UnknownSessionIsRefused(s: State, id: string, text: string, turns: seq<Turn>, saves: bool)
    requires id !in s.sessions
    ensures Performed(s, Prompt(id, text, turns, saves)) == (s, SessionNotFound)
  {
  }

  /** A cancel sets the flag of a live session and nothing else. */
  lemma {:induction false} CancelDoes(s: State, id: string)
    ensures var s' := Performed(s, Cancel(id)).0;
            && s'.store == s.store && OthersKept(s, s', id)
            && (id in s'.sessions <==> id in s.sessions)
            && (id in s.sessions ==> s'.sessions[id] == s.sessions[id].(cancelled := true))
  {
  }

  // ----- Cancelling

  /** The session was cancelled after it was last created or loaded. */
  function CancelledSince(calls: seq<Call>, id: string): bool {
    if calls == [] then false else
      var before, last := calls[..|calls| - 1], calls[|calls| - 1];
      if last.id != id then CancelledSince(before, id)
      else match last
        case NewSession(_, saves) => !saves && CancelledSince(before, id)
        case LoadSession(_, loads) => !(loads && id in Run(before).store) && CancelledSince(before, id)
        case Prompt(_, _, _, _) => CancelledSince(before, id)
        case Cancel(_) => id in Run(before).sessions || CancelledSince(before, id)
  }

  lemma {:induction false} FlagIsCancelledSince(calls: seq<Call>, id: string)
    requires id in Run(calls).sessions
    ensures Run(calls).sessions[id].cancelled == CancelledSince(calls, id)
  {
    var n := |calls| - 1;
    var before, last := Run(calls[..n]), calls[n];
    if id in before.sessions {
      FlagIsCancelledSince(calls[..n], id);
      if last.Prompt? && last.id == id {
        var s := Pushed(before.sessions[id], UserMessage(last.text));
        PushKeepsIds(s, Dialogue(s.cancelled, last.turns).0);
      }
    }
  }

  /**
   Main result: in every run, a prompt on a live session stops as cancelled exactly if the
   session was cancelled since it was last created or loaded; it then adds only the user's
   message. Nothing but loading the session again makes it usable.
   */
  lemma {:induction false} PromptIsCancelledIff(calls: seq<Call>, id: string, text: string, turns: seq<Turn>,
                                                saves: bool)
    requires id in Run(calls).sessions
    ensures var s := Run(calls);
            var (after, answer) := Performed(s, Prompt(id, text, turns, saves));
            && (answer == Done(Cancelled) <==> CancelledSince(calls, id))
            && (CancelledSince(calls, id) ==>
                  id in after.sessions && after.sessions[id].cancelled
                  && after.sessions[id].messages == s.sessions[id].messages + [UserMessage(text)])
  {
    FlagIsCancelledSince(calls, id);
    CancelledIffFlagged(Run(calls).sessions[id].cancelled, turns);
  }
}
