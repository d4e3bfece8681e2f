/**
 What the server is owed: each call's exact condition for keeping every debt recorded in
 the pending queue, and what follows for whole runs.
 */
module ThreadDebt {
  import opened Conversation
  import opened PendingSync
  import opened ThreadSync

  /** The server has this thread in its local form. */
  predicate Mirrored(w: World, id: string)
    requires id in w.local
  {
    id in w.server && w.server[id] == w.local[id]
  }

  predicate UpsertOwed(w: World, id: string)
    requires id in w.local
  {
    Mirrored(w, id) || Has(w.pending, Key(id, Upsert))
  }

  /** Nothing the server is missing or has too much is forgotten. */
  predicate DebtRecorded(w: World) {
    && (forall id | id in w.local && !w.local[id].isPrivate :: UpsertOwed(w, id))
    && (forall id | id in w.server && id !in w.local :: Has(w.pending, Key(id, Delete)))
  }

  predicate Keyed(w: World) {
    DistinctKeys(w.pending) && forall id | id in w.local :: w.local[id].id == id
  }

  // ----- Saving and deleting

  /** The server owes nothing on other ids. */
  predicate OthersSettled(w: World, id: string) {
    && (forall other | other in w.local && !w.local[other].isPrivate && other != id :: Mirrored(w, other))
    && (forall other | other in w.server && other != id :: other in w.local)
  }

  lemma {:induction false} SettledKeys(w: World, key: Key, reply: Reply, now: string, disk: Disk)
    ensures var w' := Settled(w, key, reply, now, disk);
            && (forall k :: Has(w'.pending, k) <==>
                  if reply.ok then Has(w.pending, k) && (k != key || !disk.loads || !disk.saves)
                  else (k == key && disk.saves) || (Has(w.pending, k) && (disk.loads || !disk.saves)))
            && (DistinctKeys(w.pending) ==> DistinctKeys(w'.pending))
  {
    UnqueuedKeys(w.pending, key, disk);
    QueuedKeys(w.pending, key, Some(reply.error), now, disk);
  }

  /** What a save needs of the pending file. */
  predicate SaveIsSafe(w: World, t: Thread, disk: Disk) {
    || t.isPrivate
    || (if !disk.saves then Has(w.pending, Key(t.id, Upsert)) || (t.id in w.server && w.server[t.id] == t)
        else disk.loads || OthersSettled(w, t.id))
  }

  /**
   A save keeps every debt recorded under every reply, exactly if the pending file works,
   or cannot be written but already records this thread, or cannot be read but records
   nothing else that is owed.
   */
  lemma {:induction false} SaveSafeIff(w: World, t: Thread, now: string, disk: Disk)
    requires DebtRecorded(w)
    ensures (forall reply: Reply :: DebtRecorded(Saved(w, t, reply, now, disk))) <==> SaveIsSafe(w, t, disk)
  {
    if SaveIsSafe(w, t, disk) {
      forall reply: Reply ensures DebtRecorded(Saved(w, t, reply, now, disk)) {
        SafeSaveKeepsDebt(w, t, reply, now, disk);
      }
    } else {
      UnsafeSaveLosesDebt(w, t, now, disk);
    }
  }

  lemma {:induction false} SafeSaveKeepsDebt(w: World, t: Thread, reply: Reply, now: string, disk: Disk)
    requires DebtRecorded(w) && SaveIsSafe(w, t, disk)
    ensures DebtRecorded(Saved(w, t, reply, now, disk))
  {
    var w', sent := Saved(w, t, reply, now, disk), PutOnServer(w.(local := w.local[t.id := t]), t, reply);
    SettledKeys(sent, Key(t.id, Upsert), reply, now, disk);
    forall id | id in w'.local && !w'.local[id].isPrivate ensures UpsertOwed(w', id) {
      assert id != t.id ==> id in w.local && UpsertOwed(w, id);
    }
  }

  lemma {:induction false} UnsafeSaveLosesDebt(w: World, t: Thread, now: string, disk: Disk)
    requires !SaveIsSafe(w, t, disk)
    ensures !DebtRecorded(Saved(w, t, Answer(false, false, ""), now, disk))
  {
    var reply := Answer(false, false, "");
    var w' := Saved(w, t, reply, now, disk);
    SettledKeys(w.(local := w.local[t.id := t]), Key(t.id, Upsert), reply, now, disk);
    if !disk.saves {
      assert !UpsertOwed(w', t.id);
    } else if other :| other in w.local && !w.local[other].isPrivate && other != t.id && !Mirrored(w, other) {
      assert !UpsertOwed(w', other);
    }
  }

  /** What a delete needs of the pending file. */
  predicate DeleteIsSafe(w: World, id: string, disk: Disk) {
    || id !in w.local
    || (if w.local[id].isPrivate || !disk.saves then id !in w.server || Has(w.pending, Key(id, Delete))
        else disk.loads || OthersSettled(w, id))
  }

  lemma {:induction false} DeleteSafeIff(w: World, id: string, now: string, disk: Disk)
    requires DebtRecorded(w)
    ensures (forall reply: Reply :: DebtRecorded(Deleted(w, id, reply, now, disk))) <==> DeleteIsSafe(w, id, disk)
  {
    if DeleteIsSafe(w, id, disk) {
      forall reply: Reply ensures DebtRecorded(Deleted(w, id, reply, now, disk)) {
        SafeDeleteKeepsDebt(w, id, reply, now, disk);
      }
    } else {
      UnsafeDeleteLosesDebt(w, id, now, disk);
    }
  }

  lemma {:induction false} SafeDeleteKeepsDebt(w: World, id: string, reply: Reply, now: string, disk: Disk)
    requires DebtRecorded(w) && DeleteIsSafe(w, id, disk)
    ensures DebtRecorded(Deleted(w, id, reply, now, disk))
  {
    if id in w.local {
      var w' := Deleted(w, id, reply, now, disk);
      SettledKeys(DropFromServer(w.(local := w.local - {id}), id, reply), Key(id, Delete), reply, now, disk);
      forall other | other in w'.local && !w'.local[other].isPrivate ensures UpsertOwed(w', other) {
        assert UpsertOwed(w, other);
      }
    }
  }

  lemma {:induction false} UnsafeDeleteLosesDebt(w: World, id: string, now: string, disk: Disk)
    requires !DeleteIsSafe(w, id, disk)
    ensures !DebtRecorded(Deleted(w, id, Answer(false, false, ""), now, disk))
  {
    var reply := Answer(false, false, "");
    var w' := Deleted(w, id, reply, now, disk);
    SettledKeys(w.(local := w.local - {id}), Key(id, Delete), reply, now, disk);
    if w.local[id].isPrivate || !disk.saves {
      assert id in w'.server && id !in w'.local;
    } else if other :| other in w.local && !w.local[other].isPrivate && other != id && !Mirrored(w, other) {
      assert !UpsertOwed(w', other);
    }
  }

  predicate BlockingSaveIsSafe(w: World, t: Thread) {
    t.isPrivate || Has(w.pending, Key(t.id, Upsert)) || (t.id in w.server && w.server[t.id] == t)
  }

  /** A blocking save queues nothing: it keeps the record exactly if nothing new can become owed. */
  lemma {:induction false} BlockingSaveSafeIff(w: World, t: Thread)
    requires DebtRecorded(w)
    ensures (forall reply: Reply :: DebtRecorded(SavedAndSynced(w, t, reply))) <==> BlockingSaveIsSafe(w, t)
  {
    if BlockingSaveIsSafe(w, t) {
      forall reply: Reply ensures DebtRecorded(SavedAndSynced(w, t, reply)) {
        SafeBlockingSaveKeepsDebt(w, t, reply);
      }
    } else {
      var w' := SavedAndSynced(w, t, Answer(false, false, ""));
      assert t.id in w'.local && !UpsertOwed(w', t.id);
    }
  }

  lemma {:induction false} SafeBlockingSaveKeepsDebt(w: World, t: Thread, reply: Reply)
    requires DebtRecorded(w) && (BlockingSaveIsSafe(w, t) || reply.ok)
    ensures DebtRecorded(SavedAndSynced(w, t, reply))
  {
    var w' := SavedAndSynced(w, t, reply);
    forall id | id in w'.local && !w'.local[id].isPrivate ensures UpsertOwed(w', id) {
      assert id != t.id ==> id in w.local && UpsertOwed(w, id);
    }
  }

  // ----- Retrying

  /** The key asks to delete a public thread that is still, or again, there. */
  predicate Endangers(w: World, key: Key) {
    key.operation.Delete? && key.threadId in w.local && !w.local[key.threadId].isPrivate
  }

  lemma {:induction false} RetriedKeys(w: World, key: Key, reply: Reply, disk: Disk)
    ensures var (w', success) := Retried(w, key, reply, disk);
            && w'.local == w.local
            && (forall k :: Has(w'.pending, k) <==>
                  Has(w.pending, k) && (k != key || !success || !disk.loads || !disk.saves))
            && (forall e | e in w'.pending :: e in w.pending)
            && (DistinctKeys(w.pending) ==> DistinctKeys(w'.pending))
  {
    UnqueuedKeys(w.pending, key, disk);
  }

  /** One entry keeps the record exactly unless it endangers a thread that is not queued itself. */
  lemma {:induction false} RetryEntrySafeIff(w: World, key: Key, disk: Disk)
    requires DebtRecorded(w) && (forall id | id in w.local :: w.local[id].id == id)
    ensures (forall reply: Reply :: DebtRecorded(Retried(w, key, reply, disk).0)) <==>
            !(Endangers(w, key) && !Has(w.pending, Key(key.threadId, Upsert)))
  {
    if Endangers(w, key) && !Has(w.pending, Key(key.threadId, Upsert)) {
      RetriedKeys(w, key, Answer(true, true, ""), disk);
      var w' := Retried(w, key, Answer(true, true, ""), disk).0;
      assert key.threadId in w'.local && !UpsertOwed(w', key.threadId);
    } else {
      forall reply: Reply ensures DebtRecorded(Retried(w, key, reply, disk).0) {
        SafeEntryKeepsDebt(w, key, reply, disk);
      }
    }
  }

  lemma {:induction false} SafeEntryKeepsDebt(w: World, key: Key, reply: Reply, disk: Disk)
    requires DebtRecorded(w) && (forall id | id in w.local :: w.local[id].id == id)
    requires Endangers(w, key) ==> Has(w.pending, Key(key.threadId, Upsert))
    ensures DebtRecorded(Retried(w, key, reply, disk).0)
  {
    var w' := Retried(w, key, reply, disk).0;
    RetriedKeys(w, key, reply, disk);
    forall id | id in w'.local && !w'.local[id].isPrivate ensures UpsertOwed(w', id) {
      assert UpsertOwed(w, id);
    }
  }

  /** If entry `k` endangers a thread, that thread's upload comes later in the queue. */
  predicate FollowedAt(w: World, entries: seq<Entry>, k: nat)
    requires k < |entries|
  {
    Endangers(w, entries[k].key) ==>
      exists j | k < j < |entries| :: entries[j].key == Key(entries[k].key.threadId, Upsert)
  }

  predicate DeletesAreFollowed(w: World) {
    forall k | 0 <= k < |w.pending| :: FollowedAt(w, w.pending, k)
  }

  /**
   Main result: a whole retry keeps every debt recorded, whatever the network and the
   files do, exactly if each queued deletion of a public local thread is followed by the
   upload of that thread.
   */
  lemma {:induction false} RetrySafeIff(w: World)
    requires Keyed(w) && DebtRecorded(w)
    ensures (forall weather :: DebtRecorded(RetryCalled(w, weather).0)) <==> DeletesAreFollowed(w)
  {
    if DeletesAreFollowed(w) {
      forall weather ensures DebtRecorded(RetryCalled(w, weather).0) {
        FollowedRetryKeepsDebt(w, weather);
      }
    } else {
      var k: nat :| k < |w.pending| && !FollowedAt(w, w.pending, k);
      UnfollowedDeleteLosesDebt(w, k);
    }
  }

  lemma {:induction false} FollowedRetryKeepsDebt(w: World, weather: Weather)
    requires Keyed(w) && DebtRecorded(w) && DeletesAreFollowed(w)
    ensures DebtRecorded(RetryCalled(w, weather).0)
  {
    forall j | 0 <= j < |w.pending| ensures Has(w.pending, w.pending[j].key) {
      assert w.pending[j] in w.pending;
    }
    FollowedEntriesKeepDebt(w, w.pending, 0, weather, 0);
  }

  lemma {:induction false} FollowedEntriesKeepDebt(w: World, entries: seq<Entry>, i: nat, weather: Weather, count: nat)
    requires i <= |entries| && DistinctKeys(entries)
    requires DebtRecorded(w) && (forall id | id in w.local :: w.local[id].id == id)
    requires forall j | i <= j < |entries| :: Has(w.pending, entries[j].key)
    requires forall k | i <= k < |entries| :: FollowedAt(w, entries, k)
    ensures DebtRecorded(RetriedAll(w, entries, i, weather, count).0)
    decreases |entries| - i
  {
    if i < |entries| && !Stops(entries[i].key, weather, i) {
      var key := entries[i].key;
      var (w', success) := RetriedAt(w, entries, i, weather);
      assert FollowedAt(w, entries, i);
      SafeEntryKeepsDebt(w, key, ReplyTo(weather, key, i), weather.disks(i));
      RetriedKeys(w, key, ReplyTo(weather, key, i), weather.disks(i));
      forall j | i + 1 <= j < |entries| ensures Has(w'.pending, entries[j].key) {
        assert entries[j].key != key;
      }
      forall k | i + 1 <= k < |entries| ensures FollowedAt(w', entries, k) {
        assert FollowedAt(w, entries, k);
      }
      FollowedEntriesKeepDebt(w', entries, i + 1, weather, if success then count + 1 else count);
    }
  }

  /** Everything answers. */
  const SUNNY := Weather(true, i => Answered(200, "", true), i => true, i => RELIABLE)

  /** The thread is local, and neither on the server nor queued for it. */
  predicate Forgotten(w: World, id: string) {
    id in w.local && id !in w.server && !Has(w.pending, Key(id, Upsert))
  }

  lemma {:induction false} UnfollowedDeleteLosesDebt(w: World, k: nat)
    requires Keyed(w) && k < |w.pending| && !FollowedAt(w, w.pending, k)
    ensures !DebtRecorded(RetryCalled(w, SUNNY).0)
  {
    var id := w.pending[k].key.threadId;
    var u := Find(w.pending, Key(id, Upsert));
    assert Has(w.pending, Key(id, Upsert)) ==> u < k by {
      if Has(w.pending, Key(id, Upsert)) {
        var e :| e in w.pending && e.key == Key(id, Upsert);
        var j :| 0 <= j < |w.pending| && w.pending[j] == e;
      }
    }
    DeleteIsReached(w, w.pending, 0, 0, id, u, k);
    var w' := RetryCalled(w, SUNNY).0;
    assert !UpsertOwed(w', id);
  }

  /** The upload at `u`, if it is queued at all, is done before the deletion at `k`. */
  lemma {:induction false} DeleteIsReached(w: World, entries: seq<Entry>, i: nat, count: nat, id: string,
                                           u: nat, k: nat)
    requires i <= k < |entries| && entries[k].key == Key(id, Delete)
    requires id in w.local && (forall other | other in w.local :: w.local[other].id == other)
    requires Has(w.pending, Key(id, Upsert)) ==> i <= u < k && entries[u].key == Key(id, Upsert)
    requires forall j | k < j < |entries| :: entries[j].key != Key(id, Upsert)
    ensures var w' := RetriedAll(w, entries, i, SUNNY, count).0; Forgotten(w', id) && w'.local == w.local
    decreases k - i
  {
    var key := entries[i].key;
    var (w', success) := RetriedAt(w, entries, i, SUNNY);
    RetriedKeys(w, key, ReplyTo(SUNNY, key, i), RELIABLE);
    var count' := if success then count + 1 else count;
    if i < k {
      DeleteIsReached(w', entries, i + 1, count', id, u, k);
    } else {
      LossPersists(w', entries, i + 1, SUNNY, count', id);
    }
  }

  lemma {:induction false} LossPersists(w: World, entries: seq<Entry>, i: nat, weather: Weather, count: nat, id: string)
    requires i <= |entries| && Forgotten(w, id) && (forall other | other in w.local :: w.local[other].id == other)
    requires forall j | i <= j < |entries| :: entries[j].key != Key(id, Upsert)
    ensures var w' := RetriedAll(w, entries, i, weather, count).0; Forgotten(w', id) && w'.local == w.local
    decreases |entries| - i
  {
    if i < |entries| && !Stops(entries[i].key, weather, i) {
      var (w', success) := RetriedAt(w, entries, i, weather);
      RetriedKeys(w, entries[i].key, ReplyTo(weather, entries[i].key, i), weather.disks(i));
      LossPersists(w', entries, i + 1, weather, if success then count + 1 else count, id);
    }
  }

  lemma {:induction false} RetryKeepsKeyed(w: World, entries: seq<Entry>, i: nat, weather: Weather, count: nat)
    requires i <= |entries| && Keyed(w)
    ensures var w' := RetriedAll(w, entries, i, weather, count).0;
            && Keyed(w') && w'.local == w.local
            && (forall k | Has(w'.pending, k) :: Has(w.pending, k))
            && (forall e | e in w'.pending :: e in w.pending)
    decreases |entries| - i
  {
    if i < |entries| && !Stops(entries[i].key, weather, i) {
      var (w', success) := RetriedAt(w, entries, i, weather);
      RetriedKeys(w, entries[i].key, ReplyTo(weather, entries[i].key, i), weather.disks(i));
      RetryKeepsKeyed(w', entries, i + 1, weather, if success then count + 1 else count);
    }
  }

  // ----- What a retry achieves

  predicate FilesWork(weather: Weather, n: nat) {
    forall i | 0 <= i < n :: weather.disks(i) == RELIABLE
  }

  lemma {:induction false} SuccessCutsOne(w: World, key: Key, reply: Reply)
    requires DistinctKeys(w.pending) && Has(w.pending, key)
    ensures var (w', success) := Retried(w, key, reply, RELIABLE);
            |w'.pending| == |w.pending| - if success then 1 else 0
  {
    RemovedCutsOne(w.pending, key);
  }

  /** An uninterrupted retry over a working pending file returns exactly the number of entries that left the queue. */
  lemma {:induction false} RetryCountsRemovals(w: World, entries: seq<Entry>, i: nat, weather: Weather, count: nat)
    requires i <= |entries| && DistinctKeys(entries) && DistinctKeys(w.pending) && FilesWork(weather, |entries|)
    requires forall j | i <= j < |entries| :: Has(w.pending, entries[j].key)
    ensures var (w', r) := RetriedAll(w, entries, i, weather, count);
            && |w'.pending| <= |w.pending|
            && (r.Ok? ==> r.count == count + |w.pending| - |w'.pending|)
    decreases |entries| - i
  {
    if i < |entries| && !Stops(entries[i].key, weather, i) {
      var key := entries[i].key;
      var (w', success) := RetriedAt(w, entries, i, weather);
      assert weather.disks(i) == RELIABLE;
      RetriedKeys(w, key, ReplyTo(weather, key, i), RELIABLE);
      SuccessCutsOne(w, key, ReplyTo(weather, key, i));
      forall j | i + 1 <= j < |entries| ensures Has(w'.pending, entries[j].key) {
        assert entries[j].key != key;
      }
      RetryCountsRemovals(w', entries, i + 1, weather, if success then count + 1 else count);
    }
  }

  predicate Fair(weather: Weather, n: nat) {
    && weather.opens && FilesWork(weather, n)
    && (forall i | 0 <= i < n :: weather.loads(i))
    && (forall i | 0 <= i < n :: weather.responses(i).Answered? && weather.responses(i).status in {200, 204})
  }

  lemma {:induction false} FairRetryEmptiesQueue(w: World, entries: seq<Entry>, i: nat, weather: Weather, count: nat)
    requires i <= |entries| && Fair(weather, |entries|)
    ensures var (w', r) := RetriedAll(w, entries, i, weather, count);
            && r.Ok? && w'.local == w.local
            && (forall k | Has(w'.pending, k) :: Has(w.pending, k))
            && (forall j | i <= j < |entries| && Has(w'.pending, entries[j].key) ::
                  entries[j].key.operation.Upsert? && entries[j].key.threadId !in w.local)
    decreases |entries| - i
  {
    if i < |entries| {
      var key := entries[i].key;
      assert weather.loads(i) && weather.disks(i) == RELIABLE && ReplyTo(weather, key, i).ok;
      var (w', success) := RetriedAt(w, entries, i, weather);
      RetriedKeys(w, key, ReplyTo(weather, key, i), RELIABLE);
      FairRetryEmptiesQueue(w', entries, i + 1, weather, if success then count + 1 else count);
    }
  }

  lemma {:induction false} FairRetryLeaves(w: World, weather: Weather, e: Entry)
    requires Fair(weather, |w.pending|) && e in RetriedAll(w, w.pending, 0, weather, 0).0.pending
    ensures e.key.operation.Upsert? && e.key.threadId !in w.local
  {
    FairRetryEmptiesQueue(w, w.pending, 0, weather, 0);
    assert Has(RetriedAll(w, w.pending, 0, weather, 0).0.pending, e.key);
    assert Has(w.pending, e.key);
    var j :| 0 <= j < |w.pending| && w.pending[j].key == e.key;
  }

  lemma {:induction false} FairRetryKeepsNothingOwed(w: World, weather: Weather)
    requires Fair(weather, |w.pending|)
    ensures forall e | e in RetriedAll(w, w.pending, 0, weather, 0).0.pending ::
              e.key.operation.Upsert? && e.key.threadId !in w.local
  {
    forall e | e in RetriedAll(w, w.pending, 0, weather, 0).0.pending
      ensures e.key.operation.Upsert? && e.key.threadId !in w.local
    {
      FairRetryLeaves(w, weather, e);
    }
  }

  /** Each id keeps its flag, and private ones are unknown outside. */
  predicate FlagsKept(w: World, private: string -> bool) {
    && (forall id | id in w.local :: w.local[id].isPrivate == private(id))
    && (forall id | id in w.server :: !private(id))
    && (forall e | e in w.pending :: !private(e.key.threadId))
  }

  lemma {:induction false} RetryKeepsFlags(w: World, entries: seq<Entry>, i: nat, weather: Weather, count: nat,
                                           private: string -> bool)
    requires i <= |entries| && Keyed(w) && FlagsKept(w, private)
    requires forall e | e in entries :: !private(e.key.threadId)
    ensures FlagsKept(RetriedAll(w, entries, i, weather, count).0, private)
    decreases |entries| - i
  {
    if i < |entries| && !Stops(entries[i].key, weather, i) {
      assert entries[i] in entries;
      var (w', success) := RetriedAt(w, entries, i, weather);
      RetriedKeys(w, entries[i].key, ReplyTo(weather, entries[i].key, i), weather.disks(i));
      RetryKeepsFlags(w', entries, i + 1, weather, if success then count + 1 else count, private);
    }
  }

  /**
   Main result: a retry in which everything answers pays every debt: the server then
   holds exactly the public local threads, in their local form.
   */
  lemma {:induction false} FairRetrySettles(w: World, weather: Weather, private: string -> bool)
    requires Keyed(w) && DebtRecorded(w) && DeletesAreFollowed(w) && FlagsKept(w, private)
    requires Fair(weather, |w.pending|)
    ensures var (w', r) := RetryCalled(w, weather);
            && r.Ok? && r.count + |w'.pending| == |w.pending|
            && w'.local == w.local
            && w'.server == (map id | id in w.local && !w.local[id].isPrivate :: w.local[id])
            && (forall e | e in w'.pending :: e.key.operation.Upsert? && e.key.threadId !in w.local)
  {
    FairRetryEmptiesQueue(w, w.pending, 0, weather, 0);
    FollowedRetryKeepsDebt(w, weather);
    RetryKeepsFlags(w, w.pending, 0, weather, 0, private);
    forall j | 0 <= j < |w.pending| ensures Has(w.pending, w.pending[j].key) {
      assert w.pending[j] in w.pending;
    }
    RetryCountsRemovals(w, w.pending, 0, weather, 0);
    FairRetryKeepsNothingOwed(w, weather);
    var w' := RetryCalled(w, weather).0;
    NothingOwedIsMirrored(w', private);
  }

  /** Where the queue holds nothing that is owed, the server holds the public local threads. */
  lemma {:induction false} NothingOwedIsMirrored(w: World, private: string -> bool)
    requires DebtRecorded(w) && FlagsKept(w, private)
    requires forall e | e in w.pending :: e.key.operation.Upsert? && e.key.threadId !in w.local
    ensures w.server == (map id | id in w.local && !w.local[id].isPrivate :: w.local[id])
  {
    forall id | id in w.local && !w.local[id].isPrivate ensures Mirrored(w, id) {
      assert UpsertOwed(w, id);
    }
    assert forall id | id in w.server :: id in w.local;
  }

  // ----- Whole runs

  /** The exact condition of the call, or a blocking save that the server confirms. */
  predicate Safe(w: World, call: Call) {
    match call
    case SaveCall(t, writes, _, _, disk) => writes ==> SaveIsSafe(w, t, disk)
    case BlockingSaveCall(t, writes, reply) => writes ==> BlockingSaveIsSafe(w, t) || reply.ok
    case DeleteCall(id, loads, writes, _, _, disk) => loads && writes ==> DeleteIsSafe(w, id, disk)
    case RetryCall(weather) => weather.opens ==> DeletesAreFollowed(w)
  }

  predicate SafeRun(calls: seq<Call>) {
    forall i | 0 <= i < |calls| :: Safe(Run(calls[..i]), calls[i])
  }

  lemma {:induction false} CallKeepsDebt(w: World, call: Call)
    requires DebtRecorded(w) && Keyed(w) && Safe(w, call)
    ensures DebtRecorded(Performed(w, call))
  {
    match call {
      case SaveCall(t, writes, reply, now, disk) =>
        if writes {
          SafeSaveKeepsDebt(w, t, reply, now, disk);
        }
      case BlockingSaveCall(t, writes, reply) =>
        if writes {
          SafeBlockingSaveKeepsDebt(w, t, reply);
        }
      case DeleteCall(id, loads, writes, reply, now, disk) =>
        if loads && writes {
          SafeDeleteKeepsDebt(w, id, reply, now, disk);
        }
      case RetryCall(weather) =>
        if weather.opens {
          FollowedRetryKeepsDebt(w, weather);
        }
    }
  }

  lemma {:induction false} CallKeepsKeyed(w: World, call: Call)
    requires Keyed(w)
    ensures Keyed(Performed(w, call))
  {
    match call {
      case SaveCall(t, _, reply, now, disk) =>
        SettledKeys(PutOnServer(w.(local := w.local[t.id := t]), t, reply), Key(t.id, Upsert), reply, now, disk);
      case BlockingSaveCall(_, _, _) =>
      case DeleteCall(id, _, _, reply, now, disk) =>
        SettledKeys(DropFromServer(w.(local := w.local - {id}), id, reply), Key(id, Delete), reply, now, disk);
      case RetryCall(weather) =>
        RetryKeepsKeyed(w, w.pending, 0, weather, 0);
    }
  }

  /**
   Main result: over every run in which each call meets its exact condition, each public
   local thread is on the server in its local form or has an Upsert entry, and each
   thread that is on the server but no longer local has a Delete entry.
   */
  lemma {:induction false} SafeRunsRecordDebt(calls: seq<Call>)
    requires SafeRun(calls)
    ensures DebtRecorded(Run(calls)) && Keyed(Run(calls))
  {
    if calls != [] {
      var n := |calls| - 1;
      assert forall i | 0 <= i < n :: calls[..n][..i] == calls[..i] && calls[..n][i] == calls[i];
      SafeRunsRecordDebt(calls[..n]);
      CallKeepsDebt(Run(calls[..n]), calls[n]);
      CallKeepsKeyed(Run(calls[..n]), calls[n]);
    }
  }

  // ----- A condition on the calls alone

  /** Flags are kept, and no local thread is scheduled for deletion. */
  predicate Orderly(w: World, private: string -> bool) {
    FlagsKept(w, private) && forall id | id in w.local :: !Has(w.pending, Key(id, Delete))
  }

  /** The call keeps the thread's flag, finds the pending file working, and saves no thread awaiting deletion. */
  predicate Admissible(w: World, call: Call, private: string -> bool) {
    match call
    case SaveCall(t, _, _, _, disk) =>
      t.isPrivate == private(t.id) && !Has(w.pending, Key(t.id, Delete)) && disk == RELIABLE
    case BlockingSaveCall(t, _, reply) =>
      && t.isPrivate == private(t.id) && !Has(w.pending, Key(t.id, Delete))
      && (reply.ok || BlockingSaveIsSafe(w, t))
    case DeleteCall(_, _, _, _, _, disk) => disk == RELIABLE
    case RetryCall(_) => true
  }

  predicate AdmissibleRun(calls: seq<Call>, private: string -> bool) {
    forall i | 0 <= i < |calls| :: Admissible(Run(calls[..i]), calls[i], private)
  }

  lemma {:induction false} AdmissibleIsSafe(w: World, call: Call, private: string -> bool)
    requires Orderly(w, private) && Admissible(w, call, private)
    ensures Safe(w, call)
  {
    forall k | 0 <= k < |w.pending| ensures FollowedAt(w, w.pending, k) {
      var key := w.pending[k].key;
      assert w.pending[k] in w.pending;
      assert key.operation.Delete? ==> Has(w.pending, Key(key.threadId, Delete));
    }
  }

  lemma {:induction false} SettledFlags(w: World, key: Key, reply: Reply, now: string, disk: Disk,
                                        private: string -> bool)
    requires !private(key.threadId) && forall e | e in w.pending :: !private(e.key.threadId)
    ensures forall e | e in Settled(w, key, reply, now, disk).pending :: !private(e.key.threadId)
  {
    UnqueuedKeys(w.pending, key, disk);
  }

  lemma {:induction false} CallKeepsOrderly(w: World, call: Call, private: string -> bool)
    requires Orderly(w, private) && Keyed(w) && Admissible(w, call, private)
    ensures Orderly(Performed(w, call), private)
  {
    match call {
      case SaveCall(t, writes, reply, now, disk) =>
        var sent := PutOnServer(w.(local := w.local[t.id := t]), t, reply);
        SettledKeys(sent, Key(t.id, Upsert), reply, now, disk);
        if !t.isPrivate {
          SettledFlags(sent, Key(t.id, Upsert), reply, now, disk, private);
        }
      case BlockingSaveCall(t, writes, reply) =>
      case DeleteCall(id, loads, writes, reply, now, disk) =>
        var sent := DropFromServer(w.(local := w.local - {id}), id, reply);
        SettledKeys(sent, Key(id, Delete), reply, now, disk);
        if id in w.local && !w.local[id].isPrivate {
          SettledFlags(sent, Key(id, Delete), reply, now, disk, private);
        }
      case RetryCall(weather) =>
        RetryKeepsKeyed(w, w.pending, 0, weather, 0);
        RetryKeepsFlags(w, w.pending, 0, weather, 0, private);
    }
  }

  /** Admissible runs record every debt, and no private thread is on the server or in the queue. */
  lemma {:induction false} DebtIsAlwaysRecorded(calls: seq<Call>, private: string -> bool)
    requires AdmissibleRun(calls, private)
    ensures DebtRecorded(Run(calls)) && Keyed(Run(calls)) && Orderly(Run(calls), private)
  {
    if calls != [] {
      var n := |calls| - 1;
      assert forall i | 0 <= i < n :: calls[..n][..i] == calls[..i] && calls[..n][i] == calls[i];
      DebtIsAlwaysRecorded(calls[..n], private);
      AdmissibleIsSafe(Run(calls[..n]), calls[n], private);
      CallKeepsDebt(Run(calls[..n]), calls[n]);
      CallKeepsKeyed(Run(calls[..n]), calls[n]);
      CallKeepsOrderly(Run(calls[..n]), calls[n], private);
    }
  }

  /** No id is saved after it was deleted. */
  predicate NeverSavedAgain(calls: seq<Call>) {
    forall i, j | 0 <= i < j < |calls| && calls[i].DeleteCall? && calls[j].SaveCall? :: calls[i].id != calls[j].t.id
  }

  /** Saves keep the flags, nothing is saved blocking, and the pending file works. */
  predicate Plain(call: Call, private: string -> bool) {
    match call
    case SaveCall(t, _, _, _, disk) => t.isPrivate == private(t.id) && disk == RELIABLE
    case BlockingSaveCall(_, _, _) => false
    case DeleteCall(_, _, _, _, _, disk) => disk == RELIABLE
    case RetryCall(_) => true
  }

  lemma {:induction false} RetryAddsNoEntries(w: World, entries: seq<Entry>, i: nat, weather: Weather, count: nat,
                                              key: Key)
    requires i <= |entries|
    ensures Has(RetriedAll(w, entries, i, weather, count).0.pending, key) ==> Has(w.pending, key)
    decreases |entries| - i
  {
    if i < |entries| && !Stops(entries[i].key, weather, i) {
      var (w', success) := RetriedAt(w, entries, i, weather);
      RetriedKeys(w, entries[i].key, ReplyTo(weather, entries[i].key, i), weather.disks(i));
      RetryAddsNoEntries(w', entries, i + 1, weather, if success then count + 1 else count, key);
    }
  }

  lemma {:induction false} DeleteEntriesComeFromDeletes(calls: seq<Call>, id: string) returns (i: nat)
    requires Has(Run(calls).pending, Key(id, Delete))
    ensures i < |calls| && calls[i].DeleteCall? && calls[i].id == id
  {
    var n := |calls| - 1;
    var w, call := Run(calls[..n]), calls[n];
    if call.DeleteCall? && call.id == id {
      return n;
    }
    match call {
      case SaveCall(t, _, reply, now, disk) =>
        SettledKeys(PutOnServer(w.(local := w.local[t.id := t]), t, reply), Key(t.id, Upsert), reply, now, disk);
      case BlockingSaveCall(_, _, _) =>
      case DeleteCall(d, _, _, reply, now, disk) =>
        SettledKeys(DropFromServer(w.(local := w.local - {d}), d, reply), Key(d, Delete), reply, now, disk);
      case RetryCall(weather) =>
        RetryAddsNoEntries(w, w.pending, 0, weather, 0, Key(id, Delete));
    }
    i := DeleteEntriesComeFromDeletes(calls[..n], id);
  }

  lemma {:induction false} NeverSavedAgainIsAdmissible(calls: seq<Call>, private: string -> bool)
    requires NeverSavedAgain(calls) && forall i | 0 <= i < |calls| :: Plain(calls[i], private)
    ensures AdmissibleRun(calls, private)
  {
    forall j | 0 <= j < |calls| ensures Admissible(Run(calls[..j]), calls[j], private) {
      assert Plain(calls[j], private);
      if calls[j].SaveCall? && Has(Run(calls[..j]).pending, Key(calls[j].t.id, Delete)) {
        var i := DeleteEntriesComeFromDeletes(calls[..j], calls[j].t.id);
        assert false;
      }
    }
  }

  // ----- Runs that lose a debt

  /** Saved, deleted while the server is away, saved again: the queued deletion removes the new copy. */
  lemma {:induction false} SavingAgainLosesDebt(t: Thread, now: string)
    requires !t.isPrivate
    ensures var ok, away := Answer(true, true, ""), Answer(false, false, "offline");
            var w := Run([SaveCall(t, true, ok, now, RELIABLE), DeleteCall(t.id, true, true, away, now, RELIABLE),
                          SaveCall(t, true, ok, now, RELIABLE), RetryCall(SUNNY)]);
            w == World(map[t.id := t], map[], [])
  {
    var ok, away := Answer(true, true, ""), Answer(false, false, "offline");
    var c0, c1 := SaveCall(t, true, ok, now, RELIABLE), DeleteCall(t.id, true, true, away, now, RELIABLE);
    var c2 := RetryCall(SUNNY);
    var calls := [c0, c1, c0, c2];
    var e := Entry(Key(t.id, Delete), now, 0, Some("offline"));
    assert calls[..3] == [c0, c1, c0] && calls[..3][..2] == [c0, c1] && [c0, c1][..1] == [c0] && [c0][..0] == [];
    assert Run([]) == NOTHING;
    assert Run([c0]) == World(map[t.id := t], map[t.id := t], []);
    assert Run([c0, c1]) == World(map[], map[t.id := t], [e]);
    var w := World(map[t.id := t], map[t.id := t], [e]);
    assert Removed([e], Key(t.id, Upsert)) == [e];
    assert Run([c0, c1, c0]) == w;
    assert RetriedAt(w, [e], 0, SUNNY) == (World(w.local, map[], []), true) by {
      assert Removed([e], e.key) == [];
      assert w.server - {t.id} == map[];
    }
    assert RetriedAll(w, [e], 0, SUNNY, 0) == (World(w.local, map[], []), Ok(1));
    assert RetryCalled(w, SUNNY).0 == World(w.local, map[], []);
    assert Run(calls) == Performed(w, c2);
  }

  /**
   The same with the server away throughout: the upload is queued before the deletion, so
   a retry sends the thread, deletes it again and empties the queue.
   */
  lemma {:induction false} UploadThenDeleteLosesDebt(t: Thread, now: string)
    requires !t.isPrivate
    ensures var away := Answer(false, false, "offline");
            var w := Run([SaveCall(t, true, away, now, RELIABLE), DeleteCall(t.id, true, true, away, now, RELIABLE),
                          SaveCall(t, true, away, now, RELIABLE), RetryCall(SUNNY)]);
            w == World(map[t.id := t], map[], [])
  {
    var away := Answer(false, false, "offline");
    var c0, c1 := SaveCall(t, true, away, now, RELIABLE), DeleteCall(t.id, true, true, away, now, RELIABLE);
    var c2 := RetryCall(SUNNY);
    var calls := [c0, c1, c0, c2];
    var u, d := Entry(Key(t.id, Upsert), now, 0, Some("offline")), Entry(Key(t.id, Delete), now, 0, Some("offline"));
    var u' := u.(retryCount := 1);
    assert calls[..3] == [c0, c1, c0] && calls[..3][..2] == [c0, c1] && [c0, c1][..1] == [c0] && [c0][..0] == [];
    assert Run([]) == NOTHING;
    assert Run([c0]) == World(map[t.id := t], map[], [u]);
    assert Run([c0, c1]) == World(map[], map[], [u, d]);
    assert [u, d][0 := u'] == [u', d];
    var w := World(map[t.id := t], map[], [u', d]);
    assert Run([c0, c1, c0]) == w;
    var w' := World(w.local, map[t.id := t], [d]);
    assert RetriedAt(w, [u', d], 0, SUNNY) == (w', true) by {
      assert [u', d][1..] == [d] && Removed([d], u.key) == [d];
    }
    assert RetriedAt(w', [u', d], 1, SUNNY) == (World(w.local, map[], []), true) by {
      assert Removed([d], d.key) == [];
      assert w'.server - {t.id} == map[];
    }
    assert RetriedAll(w, [u', d], 0, SUNNY, 0) == RetriedAll(w', [u', d], 1, SUNNY, 1);
    assert RetriedAll(w', [u', d], 1, SUNNY, 1) == (World(w.local, map[], []), Ok(2));
    assert RetryCalled(w, SUNNY).0 == World(w.local, map[], []);
    assert Run(calls) == Performed(w, c2);
    assert Run(calls) == World(w.local, map[], []);
  }
}
