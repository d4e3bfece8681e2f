/**
 What each call of the sync store does to the local store, the server and every key of
 the queue, and what a run of calls leaves in the local store.
 */
module ThreadCalls {
  import opened Conversation
  import opened PendingSync
  import opened ThreadSync

  /** What a background task leaves of each key: its own is gone after a success, and renewed after a failure. */
  ghost predicate TaskLeaves(before: seq<Entry>, after: seq<Entry>, key: Key, reply: Reply, now: string, disk: Disk) {
    && (reply.ok ==>
          forall k :: EntryOf(after, k) == if k == key && disk.loads && disk.saves then None else EntryOf(before, k))
    && (!reply.ok && !disk.saves ==> after == before)
    && (!reply.ok && disk.saves ==>
          && EntryOf(after, key).Some?
          && EntryOf(after, key).value.failedAt == now
          && EntryOf(after, key).value.lastError == Some(reply.error)
          && EntryOf(after, key).value.retryCount == (
               if disk.loads && EntryOf(before, key).Some?
               then (EntryOf(before, key).value.retryCount + 1) % COUNTER_RANGE
               else 0)
          && forall k | k != key :: EntryOf(after, k) == if disk.loads then EntryOf(before, k) else None)
  }

  lemma {:induction false} SettledLeaves(w: World, key: Key, reply: Reply, now: string, disk: Disk)
    ensures var w' := Settled(w, key, reply, now, disk);
            w'.local == w.local && w'.server == w.server && TaskLeaves(w.pending, w'.pending, key, reply, now, disk)
  {
    var after := Settled(w, key, reply, now, disk).pending;
    if reply.ok {
      forall k
        ensures EntryOf(after, k) == if k == key && disk.loads && disk.saves then None else EntryOf(w.pending, k)
      {
        UnqueuedEntry(w.pending, key, disk, k);
      }
    } else if disk.saves {
      QueuedEntry(w.pending, key, Some(reply.error), now, disk, key);
      forall k | k != key ensures EntryOf(after, k) == if disk.loads then EntryOf(w.pending, k) else None {
        QueuedEntry(w.pending, key, Some(reply.error), now, disk, k);
      }
    }
  }

  /** A save: local at once; if public, sent, and queued or taken out of the queue. */
  lemma {:induction false} SaveDoes(w: World, t: Thread, reply: Reply, now: string, disk: Disk)
    ensures var w' := Saved(w, t, reply, now, disk);
            && w'.local == w.local[t.id := t]
            && w'.server == (if !t.isPrivate && reply.applied then w.server[t.id := t] else w.server)
            && (t.isPrivate ==> w'.pending == w.pending)
            && (!t.isPrivate ==> TaskLeaves(w.pending, w'.pending, Key(t.id, Upsert), reply, now, disk))
  {
    SettledLeaves(PutOnServer(w.(local := w.local[t.id := t]), t, reply), Key(t.id, Upsert), reply, now, disk);
  }

  /** The same in terms of which keys are queued. */
  lemma {:induction false} SaveQueues(w: World, t: Thread, reply: Reply, now: string, disk: Disk, k: Key)
    requires !t.isPrivate
    ensures var queued := Has(Saved(w, t, reply, now, disk).pending, k);
            && (reply.ok && disk == RELIABLE ==> (queued <==> Has(w.pending, k) && k != Key(t.id, Upsert)))
            && (!reply.ok && disk == RELIABLE ==> (queued <==> Has(w.pending, k) || k == Key(t.id, Upsert)))
            && (reply.ok && disk != RELIABLE ==> (queued <==> Has(w.pending, k)))
            && (!reply.ok && !disk.saves ==> (queued <==> Has(w.pending, k)))
            && (!reply.ok && disk.saves && !disk.loads ==> (queued <==> k == Key(t.id, Upsert)))
  {
    SaveDoes(w, t, reply, now, disk);
    EntryOfIffHas(w.pending, k);
    EntryOfIffHas(Saved(w, t, reply, now, disk).pending, k);
  }

  lemma {:induction false} BlockingSaveDoes(w: World, t: Thread, reply: Reply)
    ensures var w' := SavedAndSynced(w, t, reply);
            && w'.local == w.local[t.id := t] && w'.pending == w.pending
            && w'.server == (if !t.isPrivate && reply.applied then w.server[t.id := t] else w.server)
  {
  }

  /** A delete: nothing if the thread is not there; else gone locally, and if public, from the server or queued. */
  lemma {:induction false} DeleteDoes(w: World, id: string, reply: Reply, now: string, disk: Disk)
    ensures var w' := Deleted(w, id, reply, now, disk);
            && (id !in w.local ==> w' == w)
            && (id in w.local ==>
                  var public := !w.local[id].isPrivate;
                  && w'.local == w.local - {id}
                  && w'.server == (if public && reply.applied then w.server - {id} else w.server)
                  && (!public ==> w'.pending == w.pending)
                  && (public ==> TaskLeaves(w.pending, w'.pending, Key(id, Delete), reply, now, disk)))
  {
    SettledLeaves(DropFromServer(w.(local := w.local - {id}), id, reply), Key(id, Delete), reply, now, disk);
  }

  lemma {:induction false} DeleteQueues(w: World, id: string, reply: Reply, now: string, disk: Disk, k: Key)
    requires id in w.local && !w.local[id].isPrivate
    ensures var queued := Has(Deleted(w, id, reply, now, disk).pending, k);
            && (reply.ok && disk == RELIABLE ==> (queued <==> Has(w.pending, k) && k != Key(id, Delete)))
            && (!reply.ok && disk == RELIABLE ==> (queued <==> Has(w.pending, k) || k == Key(id, Delete)))
            && (reply.ok && disk != RELIABLE ==> (queued <==> Has(w.pending, k)))
            && (!reply.ok && !disk.saves ==> (queued <==> Has(w.pending, k)))
            && (!reply.ok && disk.saves && !disk.loads ==> (queued <==> k == Key(id, Delete)))
  {
    DeleteDoes(w, id, reply, now, disk);
    EntryOfIffHas(w.pending, k);
    EntryOfIffHas(Deleted(w, id, reply, now, disk).pending, k);
  }

  /** One entry of a retry: a missing thread is skipped; else sent or deleted, and on success taken out of the queue. */
  lemma {:induction false} RetryEntryDoes(w: World, key: Key, reply: Reply, disk: Disk, k: Key)
    ensures var (w', success) := Retried(w, key, reply, disk);
            var id := key.threadId;
            && w'.local == w.local
            && (success <==> reply.ok && (key.operation.Delete? || id in w.local))
            && w'.server == (if key.operation.Delete? && reply.applied then w.server - {id}
                             else if key.operation.Upsert? && id in w.local && reply.applied
                             then w.server[w.local[id].id := w.local[id]]
                             else w.server)
            && EntryOf(w'.pending, k) ==
               if success && k == key && disk.loads && disk.saves then None else EntryOf(w.pending, k)
  {
    UnqueuedEntry(w.pending, key, disk, k);
  }

  // ----- How a retry ends

  /** Entry `j` needs a thread that cannot be read. */
  predicate Unreadable(entries: seq<Entry>, weather: Weather, j: nat)
    requires j < |entries|
  {
    entries[j].key.operation.Upsert? && !weather.loads(j)
  }

  /** A retry fails exactly if some thread it needs cannot be read. */
  lemma {:induction false} RetryFailsIff(w: World, entries: seq<Entry>, i: nat, weather: Weather, count: nat)
    requires i <= |entries|
    ensures var r := RetriedAll(w, entries, i, weather, count).1;
            && (r == StorageError <==> exists j | i <= j < |entries| :: Unreadable(entries, weather, j))
            && (r != StorageError ==> r.Ok? && count <= r.count <= count + |entries| - i)
    decreases |entries| - i
  {
    if i < |entries| {
      if Unreadable(entries, weather, i) {
      } else {
        var (w', success) := RetriedAt(w, entries, i, weather);
        RetryFailsIff(w', entries, i + 1, weather, if success then count + 1 else count);
      }
    }
  }

  /** And then it has done what a retry of the entries before does, and nothing to those after. */
  lemma {:induction false} RetryStopsThere(w: World, entries: seq<Entry>, i: nat, weather: Weather, count: nat, k: nat)
    requires i <= k < |entries| && Unreadable(entries, weather, k)
    requires forall j | i <= j < k :: !Unreadable(entries, weather, j)
    ensures RetriedAll(w, entries, i, weather, count).0 == RetriedAll(w, entries[..k], i, weather, count).0
    decreases k - i
  {
    if i < k {
      assert entries[..k][i] == entries[i];
      var (w', success) := RetriedAt(w, entries, i, weather);
      RetryStopsThere(w', entries, i + 1, weather, if success then count + 1 else count, k);
    }
  }

  // ----- The local store over whole runs

  /** The last form in which the thread was written, unless it was deleted since. */
  function LastWritten(calls: seq<Call>, id: string): Option<Thread> {
    if calls == [] then None else
      var before, last := LastWritten(calls[..|calls| - 1], id), calls[|calls| - 1];
      match last
      case SaveCall(t, writes, _, _, _) => if writes && t.id == id then Some(t) else before
      case BlockingSaveCall(t, writes, _) => if writes && t.id == id then Some(t) else before
      case DeleteCall(d, loads, writes, _, _, _) => if loads && writes && d == id then None else before
      case RetryCall(_) => before
  }

  /** Main result: after every run, whatever the network does, the local store holds what was last written. */
  lemma {:induction false} LocalIsLastWritten(calls: seq<Call>, id: string)
    ensures (if id in Run(calls).local then Some(Run(calls).local[id]) else None) == LastWritten(calls, id)
  {
    if calls != [] {
      var n := |calls| - 1;
      LocalIsLastWritten(calls[..n], id);
      var w := Run(calls[..n]);
      match calls[n] {
        case SaveCall(t, _, reply, now, disk) => SaveDoes(w, t, reply, now, disk);
        case BlockingSaveCall(_, _, _) =>
        case DeleteCall(d, _, _, reply, now, disk) => DeleteDoes(w, d, reply, now, disk);
        case RetryCall(weather) => RetryKeepsLocal(w, w.pending, 0, weather, 0);
      }
    }
  }

  lemma {:induction false} RetryKeepsLocal(w: World, entries: seq<Entry>, i: nat, weather: Weather, count: nat)
    requires i <= |entries|
    ensures RetriedAll(w, entries, i, weather, count).0.local == w.local
    decreases |entries| - i
  {
    if i < |entries| && !Stops(entries[i].key, weather, i) {
      var (w', success) := RetriedAt(w, entries, i, weather);
      RetryKeepsLocal(w', entries, i + 1, weather, if success then count + 1 else count);
    }
  }
}
