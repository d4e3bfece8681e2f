/**
 Private threads and the network, under every interleaving of saves, blocking saves,
 deletes, background tasks and retries.

 Each file access and each request is a step of its own. A step that does not apply
 changes nothing.
 */
module SyncPrivacy {
  import opened Conversation
  import opened PendingSync
  import opened ThreadSync

  /** What goes over the network: a whole thread, or the id of one to delete. */
  datatype Packet = Put(thread: Thread) | Drop(id: string) {
    function Id(): string {
      if Put? then thread.id else id
    }

    function Key(): PendingSync.Key {
      PendingSync.Key(Id(), if Put? then Upsert else Delete)
    }
  }

  /** A spawned background task and whether its request is out. */
  datatype Task = Task(packet: Packet, sent: bool)

  /** A delete call between its two file accesses, with what the first one found. */
  datatype Deletion = Deletion(id: string, loaded: Option<Thread>)

  /** A retry: the entries still to go, and the request of the first of them once it is loaded and once it is out. */
  datatype Retry = Retry(rest: seq<Entry>, held: Option<Packet>, sent: bool)

  datatype Store = Store(
    local: map<string, Thread>,
    pending: seq<Entry>,
    tasks: seq<Task>,
    blocking: seq<Packet>,
    deletions: seq<Deletion>,
    retries: seq<Retry>,
    wire: seq<Packet>)

  datatype Step =
    | Save(t: Thread)
    | BlockingSave(t: Thread)
    | BlockingSend(k: nat)
    | DeleteLoad(id: string)
    | DeleteRemove(k: nat)
    | TaskSend(k: nat)
    | TaskSettle(k: nat, ok: bool, error: string, now: string, disk: Disk)
    | RetryStart
    | RetryLoad(k: nat)
    | RetrySend(k: nat)
    | RetrySettle(k: nat, ok: bool, disk: Disk)

  function Without<T>(s: seq<T>, k: nat): seq<T>
    requires k < |s|
  {
    s[..k] + s[k + 1..]
  }

  function Found(s: Store, id: string): Option<Thread> {
    if id in s.local then Some(s.local[id]) else None
  }

  function Next(s: Store, step: Step): Store {
    match step
    case Save(t) =>
      var s' := s.(local := s.local[t.id := t]);
      if t.isPrivate then s' else s'.(tasks := s.tasks + [Task(Put(t), false)])
    case BlockingSave(t) =>
      var s' := s.(local := s.local[t.id := t]);
      if t.isPrivate then s' else s'.(blocking := s.blocking + [Put(t)])
    case BlockingSend(k) =>
      if k >= |s.blocking| then s
      else s.(wire := s.wire + [s.blocking[k]], blocking := Without(s.blocking, k))
    case DeleteLoad(id) => s.(deletions := s.deletions + [Deletion(id, Found(s, id))])
    case DeleteRemove(k) =>
      if k >= |s.deletions| then s else
        var d := s.deletions[k];
        var s' := s.(deletions := Without(s.deletions, k));
        if d.id !in s.local then s'
        else if d.loaded.Some? && d.loaded.value.isPrivate then s'.(local := s.local - {d.id})
        else s'.(local := s.local - {d.id}, tasks := s.tasks + [Task(Drop(d.id), false)])
    case TaskSend(k) =>
      if k >= |s.tasks| then s
      else s.(wire := s.wire + [s.tasks[k].packet], tasks := s.tasks[k := s.tasks[k].(sent := true)])
    case TaskSettle(k, ok, error, now, disk) =>
      if k >= |s.tasks| || (ok && !s.tasks[k].sent) then s else
        var key := s.tasks[k].packet.Key();
        s.(pending := if ok then Unqueued(s.pending, key, disk) else Queued(s.pending, key, Some(error), now, disk),
           tasks := Without(s.tasks, k))
    case RetryStart => s.(retries := s.retries + [Retry(s.pending, None, false)])
    case RetryLoad(k) =>
      if k >= |s.retries| || s.retries[k].rest == [] || s.retries[k].held.Some? then s else
        var r := s.retries[k];
        var key := r.rest[0].key;
        var r' := if key.operation.Delete? then r.(held := Some(Drop(key.threadId)))
                  else if key.threadId in s.local then r.(held := Some(Put(s.local[key.threadId])))
                  else Retry(r.rest[1..], None, false);
        s.(retries := s.retries[k := r'])
    case RetrySend(k) =>
      if k >= |s.retries| || s.retries[k].held.None? then s
      else s.(wire := s.wire + [s.retries[k].held.value], retries := s.retries[k := s.retries[k].(sent := true)])
    case RetrySettle(k, ok, disk) =>
      if k >= |s.retries| || s.retries[k].held.None? || s.retries[k].rest == [] || (ok && !s.retries[k].sent) then s
      else
        var r := s.retries[k];
        s.(pending := if ok then Unqueued(s.pending, r.rest[0].key, disk) else s.pending,
           retries := s.retries[k := Retry(r.rest[1..], None, false)])
  }

  const START := Store(map[], [], [], [], [], [], [])

  function Run(steps: seq<Step>): Store {
    if steps == [] then START else Next(Run(steps[..|steps| - 1]), steps[|steps| - 1])
  }

  /** Each id keeps one flag. */
  predicate FlagsKept(steps: seq<Step>, private: string -> bool) {
    forall step | step in steps && (step.Save? || step.BlockingSave?) :: step.t.isPrivate == private(step.t.id)
  }

  /** A delete call removes a private thread that its own load had not found. */
  predicate BlindDelete(s: Store, step: Step, private: string -> bool) {
    && step.DeleteRemove? && step.k < |s.deletions|
    && var d := s.deletions[step.k];
       private(d.id) && d.id in s.local && d.loaded.None?
  }

  ghost predicate HasBlindDelete(steps: seq<Step>, private: string -> bool) {
    exists i | 0 <= i < |steps| :: BlindDelete(Run(steps[..i]), steps[i], private)
  }

  /** A private thread or id is on the wire, in a request about to be sent, or in the pending queue. */
  predicate Leaked(s: Store, private: string -> bool) {
    || (exists p | p in s.wire :: private(p.Id()))
    || (exists t | t in s.tasks :: private(t.packet.Id()))
    || (exists e | e in s.pending :: private(e.key.threadId))
  }

  predicate Public(p: Packet, private: string -> bool) {
    !private(p.Id()) && (p.Put? ==> !p.thread.isPrivate)
  }

  /** Nothing outside the local store knows a private thread. */
  predicate Sealed(s: Store, private: string -> bool) {
    && (forall p | p in s.wire :: Public(p, private))
    && (forall t | t in s.tasks :: Public(t.packet, private))
    && (forall p | p in s.blocking :: Public(p, private))
    && (forall e | e in s.pending :: !private(e.key.threadId))
    && (forall r | r in s.retries ::
          && (forall e | e in r.rest :: !private(e.key.threadId))
          && (r.held.Some? ==> Public(r.held.value, private)))
  }

  predicate Consistent(s: Store, private: string -> bool) {
    && (forall id | id in s.local :: s.local[id].id == id && s.local[id].isPrivate == private(id))
    && (forall d | d in s.deletions :: d.loaded.Some? ==> d.loaded.value.isPrivate == private(d.id))
    && (forall t | t in s.tasks && t.sent :: t.packet in s.wire)
    && (forall r | r in s.retries && r.held.Some? :: r.rest != [] && r.held.value.Key() == r.rest[0].key)
    && (forall r | r in s.retries && r.sent :: r.held.Some? && r.held.value in s.wire)
  }

  lemma {:induction false} StepKeepsConsistent(s: Store, step: Step, private: string -> bool)
    requires Consistent(s, private)
    requires step.Save? || step.BlockingSave? ==> step.t.isPrivate == private(step.t.id)
    ensures Consistent(Next(s, step), private)
  {
    if step.RetryLoad? || step.RetrySend? || step.RetrySettle? {
      RetryKeepsConsistent(s, step, private);
    }
  }

  lemma {:induction false} RetryKeepsConsistent(s: Store, step: Step, private: string -> bool)
    requires Consistent(s, private)
    requires step.RetryLoad? || step.RetrySend? || step.RetrySettle?
    ensures Consistent(Next(s, step), private)
  {
    if step.k < |s.retries| {
      assert s.retries[step.k] in s.retries;
    }
  }

  lemma {:induction false} RetryKeepsSealed(s: Store, step: Step, private: string -> bool)
    requires Consistent(s, private) && Sealed(s, private)
    requires step.RetryLoad? || step.RetrySend? || step.RetrySettle?
    ensures Sealed(Next(s, step), private)
  {
    if step.k < |s.retries| {
      var r := s.retries[step.k];
      assert r in s.retries;
      if r.rest != [] {
        assert r.rest[0] in r.rest;
        RemovedMembers(s.pending, r.rest[0].key);
      }
    }
  }

  lemma {:induction false} StepKeepsSealed(s: Store, step: Step, private: string -> bool)
    requires Consistent(s, private) && Sealed(s, private)
    requires step.Save? || step.BlockingSave? ==> step.t.isPrivate == private(step.t.id)
    requires !BlindDelete(s, step, private)
    ensures Sealed(Next(s, step), private)
  {
    match step {
      case TaskSettle(k, ok, error, now, disk) =>
        if k < |s.tasks| {
          assert s.tasks[k] in s.tasks;
          RemovedMembers(s.pending, s.tasks[k].packet.Key());
        }
      case RetryLoad(_) => RetryKeepsSealed(s, step, private);
      case RetrySend(_) => RetryKeepsSealed(s, step, private);
      case RetrySettle(_, _, _) => RetryKeepsSealed(s, step, private);
      case _ =>
    }
  }

  /** The pending file works during the step. */
  predicate FileWorks(step: Step) {
    && (step.TaskSettle? ==> step.disk == RELIABLE)
    && (step.RetrySettle? ==> step.disk == RELIABLE)
  }

  lemma {:induction false} LeakingTaskPersists(s: Store, step: Step, private: string -> bool, j: nat)
    requires Consistent(s, private) && FileWorks(step)
    requires j < |s.tasks| && private(s.tasks[j].packet.Id())
    ensures Leaked(Next(s, step), private)
  {
    var s' := Next(s, step);
    if step.TaskSettle? && step.k < |s.tasks| && (s.tasks[step.k].sent || !step.ok) {
      if j == step.k {
        assert s.tasks[j] in s.tasks;
        var key := s.tasks[j].packet.Key();
        AddedSpec(s.pending, key, Some(step.error), step.now);
        assert !step.ok ==> Has(s'.pending, key);
      } else {
        assert s'.tasks[if j < step.k then j else j - 1] == s.tasks[j];
        assert s.tasks[j] in s'.tasks;
      }
    } else {
      assert s'.tasks[j].packet == s.tasks[j].packet;
      assert s'.tasks[j] in s'.tasks;
    }
  }

  /** A private entry leaves the queue only after its request went out. */
  lemma {:induction false} LeakingEntryPersists(s: Store, step: Step, private: string -> bool, key: Key)
    requires Consistent(s, private) && FileWorks(step)
    requires Has(s.pending, key) && private(key.threadId)
    ensures Leaked(Next(s, step), private)
  {
    var s' := Next(s, step);
    match step {
      case TaskSettle(k, ok, error, now, _) =>
        if k < |s.tasks| {
          assert s.tasks[k] in s.tasks;
          RemovedKeys(s.pending, s.tasks[k].packet.Key());
          AddedSpec(s.pending, s.tasks[k].packet.Key(), Some(error), now);
        }
      case RetrySettle(k, ok, _) =>
        if k < |s.retries| && s.retries[k].rest != [] {
          assert s.retries[k] in s.retries;
          RemovedKeys(s.pending, s.retries[k].rest[0].key);
        }
      case _ =>
    }
    assert Has(s'.pending, key) || exists p | p in s'.wire :: private(p.Id());
  }

  lemma {:induction false} LeakPersists(s: Store, step: Step, private: string -> bool)
    requires Consistent(s, private) && Leaked(s, private) && FileWorks(step)
    ensures Leaked(Next(s, step), private)
  {
    assert forall p | p in s.wire :: p in Next(s, step).wire;
    if t :| t in s.tasks && private(t.packet.Id()) {
      var j: nat :| j < |s.tasks| && s.tasks[j] == t;
      LeakingTaskPersists(s, step, private, j);
    } else if e :| e in s.pending && private(e.key.threadId) {
      LeakingEntryPersists(s, step, private, e.key);
    }
  }

  lemma {:induction false} BlindDeleteLeaks(s: Store, step: Step, private: string -> bool)
    requires BlindDelete(s, step, private)
    ensures Leaked(Next(s, step), private)
  {
    var s' := Next(s, step);
    assert s'.tasks[|s.tasks|] in s'.tasks;
  }

  lemma {:induction false} RunStaysConsistent(steps: seq<Step>, private: string -> bool)
    requires FlagsKept(steps, private)
    ensures Consistent(Run(steps), private)
  {
    if steps != [] {
      assert steps == steps[..|steps| - 1] + [steps[|steps| - 1]];
      RunStaysConsistent(steps[..|steps| - 1], private);
      StepKeepsConsistent(Run(steps[..|steps| - 1]), steps[|steps| - 1], private);
    }
  }

  predicate FilesWork(steps: seq<Step>) {
    forall step | step in steps :: FileWorks(step)
  }

  /**
   Main result: over every interleaving, private threads stay local, in the strongest
   sense, if no delete call removes a private thread that its own load had not found,
   whatever the network and the files do. If one does, then as long as the pending file
   works the private id is sent, about to be sent, or queued.
   */
  lemma {:induction false} PrivateStaysLocalIff(steps: seq<Step>, private: string -> bool)
    requires FlagsKept(steps, private)
    ensures HasBlindDelete(steps, private) && FilesWork(steps) ==> Leaked(Run(steps), private)
    ensures !HasBlindDelete(steps, private) ==> Sealed(Run(steps), private) && !Leaked(Run(steps), private)
  {
    if steps != [] {
      var n := |steps| - 1;
      var before, last := steps[..n], steps[n];
      assert steps == before + [last];
      LastBlindDelete(steps, private);
      RunStaysConsistent(before, private);
      PrivateStaysLocalIff(before, private);
      if BlindDelete(Run(before), last, private) {
        BlindDeleteLeaks(Run(before), last, private);
      } else if HasBlindDelete(before, private) {
        if FilesWork(steps) {
          assert FilesWork(before) && FileWorks(last);
          LeakPersists(Run(before), last, private);
        }
      } else {
        StepKeepsSealed(Run(before), last, private);
      }
    }
  }

  lemma {:induction false} LastBlindDelete(steps: seq<Step>, private: string -> bool)
    requires steps != []
    ensures var before, last := steps[..|steps| - 1], steps[|steps| - 1];
            HasBlindDelete(steps, private) <==>
            HasBlindDelete(before, private) || BlindDelete(Run(before), last, private)
  {
    var n := |steps| - 1;
    var before := steps[..n];
    if HasBlindDelete(before, private) {
      var i: nat :| i < n && BlindDelete(Run(before[..i]), before[i], private);
      assert before[..i] == steps[..i] && before[i] == steps[i];
      assert BlindDelete(Run(steps[..i]), steps[i], private);
    }
    if HasBlindDelete(steps, private) {
      var i: nat :| i <= n && BlindDelete(Run(steps[..i]), steps[i], private);
      if i < n {
        assert before[..i] == steps[..i] && before[i] == steps[i];
        assert BlindDelete(Run(before[..i]), before[i], private);
      }
    }
  }

  /** Every delete of a private id is called while the thread is in the local store. */
  predicate DeletesFindPrivate(steps: seq<Step>, private: string -> bool) {
    forall i | 0 <= i < |steps| && steps[i].DeleteLoad? && private(steps[i].id) :: steps[i].id in Run(steps[..i]).local
  }

  predicate PrivateFound(s: Store, private: string -> bool) {
    forall d | d in s.deletions :: private(d.id) ==> d.loaded.Some?
  }

  lemma {:induction false} StepKeepsPrivateFound(s: Store, step: Step, private: string -> bool)
    requires PrivateFound(s, private)
    requires step.DeleteLoad? && private(step.id) ==> step.id in s.local
    ensures PrivateFound(Next(s, step), private)
  {
  }

  lemma {:induction false} FoundDeletionsAreKept(steps: seq<Step>, private: string -> bool)
    requires DeletesFindPrivate(steps, private)
    ensures PrivateFound(Run(steps), private)
  {
    if steps != [] {
      var n := |steps| - 1;
      assert forall i | 0 <= i < n :: steps[..n][..i] == steps[..i] && steps[..n][i] == steps[i];
      FoundDeletionsAreKept(steps[..n], private);
      StepKeepsPrivateFound(Run(steps[..n]), steps[n], private);
    }
  }

  /** A condition that callers can meet: delete a private thread only while it is there. */
  lemma {:induction false} FoundDeletesStayLocal(steps: seq<Step>, private: string -> bool)
    requires FlagsKept(steps, private) && DeletesFindPrivate(steps, private)
    ensures Sealed(Run(steps), private) && !Leaked(Run(steps), private)
  {
    forall i | 0 <= i < |steps| ensures !BlindDelete(Run(steps[..i]), steps[i], private) {
      assert forall j | 0 <= j < i :: steps[..i][..j] == steps[..j] && steps[..i][j] == steps[j];
      FoundDeletionsAreKept(steps[..i], private);
    }
    PrivateStaysLocalIff(steps, private);
  }

  /** Every delete call does its two file accesses without a break. */
  predicate AtomicDeletes(steps: seq<Step>) {
    forall i | 0 <= i < |steps| - 1 && steps[i].DeleteLoad? :: steps[i + 1] == DeleteRemove(0)
  }

  lemma {:induction false} DeletionsAfter(s: Store, step: Step)
    ensures var s' := Next(s, step);
            match step
            case DeleteLoad(id) => s'.deletions == s.deletions + [Deletion(id, Found(s', id))]
            case DeleteRemove(k) => s'.deletions == if k < |s.deletions| then Without(s.deletions, k) else s.deletions
            case _ => s'.deletions == s.deletions
  {
  }

  lemma {:induction false} AtomicDeletionsAreFresh(steps: seq<Step>)
    requires AtomicDeletes(steps)
    ensures var s := Run(steps);
            s.deletions == if steps != [] && steps[|steps| - 1].DeleteLoad?
                           then [Deletion(steps[|steps| - 1].id, Found(s, steps[|steps| - 1].id))] else []
  {
    if steps != [] {
      var n := |steps| - 1;
      AtomicDeletionsAreFresh(steps[..n]);
      DeletionsAfter(Run(steps[..n]), steps[n]);
      assert n > 0 && steps[n - 1].DeleteLoad? ==> steps[n] == DeleteRemove(0);
    }
  }

  /** If whole delete calls are atomic, private threads stay local whatever else interleaves. */
  lemma {:induction false} AtomicDeletesStayLocal(steps: seq<Step>, private: string -> bool)
    requires FlagsKept(steps, private) && AtomicDeletes(steps)
    ensures Sealed(Run(steps), private) && !Leaked(Run(steps), private)
  {
    forall i | 0 <= i < |steps| ensures !BlindDelete(Run(steps[..i]), steps[i], private) {
      AtomicDeletionsAreFresh(steps[..i]);
    }
    PrivateStaysLocalIff(steps, private);
  }

  /** The race: a private thread is saved between the two file accesses of its delete. */
  lemma {:induction false} RacingDeleteLeaks(t: Thread, private: string -> bool)
    requires t.isPrivate && private(t.id)
    ensures var steps := [DeleteLoad(t.id), Save(t), DeleteRemove(0), TaskSend(0)];
            FlagsKept(steps, private) && Run(steps).wire == [Drop(t.id)]
  {
    var a, b, c, d := DeleteLoad(t.id), Save(t), DeleteRemove(0), TaskSend(0);
    var steps := [a, b, c, d];
    assert steps[..3] == [a, b, c] && [a, b, c][..2] == [a, b] && [a, b][..1] == [a] && [a][..0] == [];
    assert Run([]) == START;
    assert Run([a]) == START.(deletions := [Deletion(t.id, None)]);
    assert Run([a, b]) == START.(local := map[t.id := t], deletions := [Deletion(t.id, None)]);
    assert Run([a, b, c]).tasks == [Task(Drop(t.id), false)] && Run([a, b, c]).wire == [];
  }

  // ----- Without interleaving the steps are the calls

  /** A save whose task runs to its end. */
  function SaveSteps(s: Store, t: Thread, reply: Reply, now: string, disk: Disk): Store {
    if t.isPrivate then Next(s, Save(t))
    else Next(Next(Next(s, Save(t)), TaskSend(0)), TaskSettle(0, reply.ok, reply.error, now, disk))
  }

  lemma {:induction false} SaveAlone(s: Store, server: map<string, Thread>, t: Thread, reply: Reply, now: string,
                                     disk: Disk)
    requires s.tasks == []
    ensures var s' := SaveSteps(s, t, reply, now, disk);
            var w' := Saved(World(s.local, server, s.pending), t, reply, now, disk);
            && s'.local == w'.local && s'.pending == w'.pending && s'.tasks == []
            && s'.wire == s.wire + if t.isPrivate then [] else [Put(t)]
  {
    assert s.tasks + [Task(Put(t), false)] == [Task(Put(t), false)];
    assert s.wire + [] == s.wire;
  }

  lemma {:induction false} BlockingSaveAlone(s: Store, server: map<string, Thread>, t: Thread, reply: Reply)
    requires s.blocking == []
    ensures var s' := Next(Next(s, BlockingSave(t)), BlockingSend(0));
            var w' := SavedAndSynced(World(s.local, server, s.pending), t, reply);
            && s'.local == w'.local && s'.pending == w'.pending && s'.blocking == []
            && s'.wire == s.wire + if t.isPrivate then [] else [Put(t)]
  {
    assert s.blocking + [Put(t)] == [Put(t)];
    assert s.wire + [] == s.wire;
  }

  /** A delete whose task runs to its end. */
  function DeleteSteps(s: Store, id: string, reply: Reply, now: string, disk: Disk): Store {
    var s' := Next(Next(s, DeleteLoad(id)), DeleteRemove(0));
    if id !in s.local || s.local[id].isPrivate then s'
    else Next(Next(s', TaskSend(0)), TaskSettle(0, reply.ok, reply.error, now, disk))
  }

  lemma {:induction false} DeleteAlone(s: Store, server: map<string, Thread>, id: string, reply: Reply, now: string,
                                       disk: Disk)
    requires s.tasks == [] && s.deletions == []
    ensures var s' := DeleteSteps(s, id, reply, now, disk);
            var w' := Deleted(World(s.local, server, s.pending), id, reply, now, disk);
            && s'.local == w'.local && s'.pending == w'.pending && s'.tasks == [] && s'.deletions == []
            && s'.wire == s.wire + if id in s.local && !s.local[id].isPrivate then [Drop(id)] else []
  {
    var d := Deletion(id, Found(s, id));
    assert s.deletions + [d] == [d] && Without([d], 0) == [];
    assert s.tasks + [Task(Drop(id), false)] == [Task(Drop(id), false)];
    assert s.wire + [] == s.wire;
  }

  /** One entry of a retry that nothing interrupts. */
  lemma {:induction false} RetryEntryAlone(s: Store, server: map<string, Thread>, reply: Reply, disk: Disk)
    requires |s.retries| == 1 && s.retries[0].rest != [] && s.retries[0].held.None? && !s.retries[0].sent
    ensures var key := s.retries[0].rest[0].key;
            var (w', success) := Retried(World(s.local, server, s.pending), key, reply, disk);
            var loaded := Next(s, RetryLoad(0));
            var s' := if loaded.retries[0].held.None? then loaded
                      else Next(Next(loaded, RetrySend(0)), RetrySettle(0, reply.ok, disk));
            && s'.local == w'.local && s'.pending == w'.pending
            && s'.retries == [Retry(s.retries[0].rest[1..], None, false)]
            && s'.wire == s.wire + if key.operation.Delete? then [Drop(key.threadId)]
                                   else if key.threadId in s.local then [Put(s.local[key.threadId])] else []
  {
    assert s.wire + [] == s.wire;
  }
}
