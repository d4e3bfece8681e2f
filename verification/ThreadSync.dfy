/**
 `SyncingThreadStore`: a local store that is mirrored to a server, with the pending
 queue as a record of what the server still has to be told.

 Background tasks run to their end before the next call. The network is a parameter:
 a call is answered or not, and a call that is not answered with success may still
 have taken effect. Reads and writes of local threads and of the pending file may fail.
 */
module ThreadSync {
  import opened Conversation
  import opened PendingSync

  datatype Thread = Thread(id: string, isPrivate: bool, version: nat, body: string)

  datatype Answer = Answer(ok: bool, applied: bool, error: string)

  /** A successful answer means that the server did what it was asked. */
  type Reply = a: Answer | a.ok ==> a.applied witness Answer(true, true, "")

  /** What comes back from the network. A lost request may have taken effect. */
  datatype Response =
    | Lost(error: string, applied: bool)
    | Answered(status: nat, error: string, applied: bool)

  /** 200, 201 and 204 are successes. */
  function UpsertReply(response: Response): Reply {
    if response.Answered? && response.status in {200, 201, 204} then Answer(true, true, "")
    else Answer(false, response.applied, response.error)
  }

  /** A thread that is not found need not be deleted. */
  function DeleteReply(response: Response): Reply {
    if response.Answered? && response.status in {200, 204, 404} then Answer(true, true, "")
    else Answer(false, response.applied, response.error)
  }

  datatype Result = Ok(count: nat) | StorageError | NotFound | SyncError

  datatype World = World(local: map<string, Thread>, server: map<string, Thread>, pending: seq<Entry>)

  // ----- What the calls do

  function PutOnServer(w: World, t: Thread, reply: Reply): World {
    if reply.applied then w.(server := w.server[t.id := t]) else w
  }

  function DropFromServer(w: World, id: string, reply: Reply): World {
    if reply.applied then w.(server := w.server - {id}) else w
  }

  /** What a background task or a retry leaves in the queue. */
  function Settled(w: World, key: Key, reply: Reply, now: string, disk: Disk): World {
    w.(pending := if reply.ok then Unqueued(w.pending, key, disk)
                  else Queued(w.pending, key, Some(reply.error), now, disk))
  }

  function Saved(w: World, t: Thread, reply: Reply, now: string, disk: Disk): World {
    var w' := w.(local := w.local[t.id := t]);
    if t.isPrivate then w' else Settled(PutOnServer(w', t, reply), Key(t.id, Upsert), reply, now, disk)
  }

  /** The blocking save reports a failure but queues nothing. */
  function SavedAndSynced(w: World, t: Thread, reply: Reply): World {
    var w' := w.(local := w.local[t.id := t]);
    if t.isPrivate then w' else PutOnServer(w', t, reply)
  }

  function Deleted(w: World, id: string, reply: Reply, now: string, disk: Disk): World {
    if id !in w.local then w else
      var w' := w.(local := w.local - {id});
      if w.local[id].isPrivate then w' else Settled(DropFromServer(w', id, reply), Key(id, Delete), reply, now, disk)
  }

  /** One entry of a retry: the new world, and whether it counts as a success. */
  function Retried(w: World, key: Key, reply: Reply, disk: Disk): (World, bool) {
    if key.operation.Upsert? && key.threadId !in w.local then (w, false) else
      var w' := if key.operation.Delete? then DropFromServer(w, key.threadId, reply)
                else PutOnServer(w, w.local[key.threadId], reply);
      (if reply.ok then w'.(pending := Unqueued(w'.pending, key, disk)) else w', reply.ok)
  }

  /** The outside of a retry: the first read of the queue, then per entry a response, a local read and a removal. */
  datatype Weather = Weather(opens: bool, responses: nat -> Response, loads: nat -> bool, disks: nat -> Disk)

  /** The response to entry `i` as its operation reads it. */
  function ReplyTo(weather: Weather, key: Key, i: nat): Reply {
    if key.operation.Upsert? then UpsertReply(weather.responses(i)) else DeleteReply(weather.responses(i))
  }

  /** An Upsert entry whose thread cannot be read ends the retry. */
  predicate Stops(key: Key, weather: Weather, i: nat) {
    key.operation.Upsert? && !weather.loads(i)
  }

  function RetriedAt(w: World, snapshot: seq<Entry>, i: nat, weather: Weather): (World, bool)
    requires i < |snapshot|
  {
    Retried(w, snapshot[i].key, ReplyTo(weather, snapshot[i].key, i), weather.disks(i))
  }

  /** A retry over the entries of `snapshot` from position `i` on. */
  function RetriedAll(w: World, snapshot: seq<Entry>, i: nat, weather: Weather, count: nat): (World, Result)
    requires i <= |snapshot|
    decreases |snapshot| - i
  {
    if i == |snapshot| then (w, Ok(count))
    else if Stops(snapshot[i].key, weather, i) then (w, StorageError)
    else
      var (w', success) := RetriedAt(w, snapshot, i, weather);
      RetriedAll(w', snapshot, i + 1, weather, if success then count + 1 else count)
  }

  /** The whole call: a queue that cannot be read ends it at once. */
  function RetryCalled(w: World, weather: Weather): (World, Result) {
    if weather.opens then RetriedAll(w, w.pending, 0, weather, 0) else (w, StorageError)
  }

  class SyncingThreadStore {
    const hasClient: bool
    const hasPending: bool
    const pendingStore: PendingSyncStore
    var local: map<string, Thread>
    var server: map<string, Thread>

    ghost function Value(): World
      reads this, pendingStore
    {
      World(local, server, pendingStore.Contents())
    }

    constructor (hasClient: bool, hasPending: bool)
      ensures this.hasClient == hasClient && this.hasPending == hasPending && fresh(pendingStore)
      ensures Value() == NOTHING
    {
      this.hasClient, this.hasPending := hasClient, hasPending;
      pendingStore := new PendingSyncStore();
      local, server := map[], map[];
    }

    method UpsertThread(t: Thread, response: Response) returns (reply: Reply)
      modifies this`server
      ensures reply == UpsertReply(response)
      ensures reply.ok <==>
                response.Answered? && (response.status == 200 || response.status == 201 || response.status == 204)
      ensures !reply.ok ==> reply.applied == response.applied && reply.error == response.error
      ensures Value() == PutOnServer(old(Value()), t, reply)
    {
      if response.Answered? && (response.status == 200 || response.status == 201 || response.status == 204) {
        server := server[t.id := t];
        return Answer(true, true, "");
      }
      if response.applied {
        server := server[t.id := t];
      }
      return Answer(false, response.applied, response.error);
    }

    method DeleteThread(id: string, response: Response) returns (reply: Reply)
      modifies this`server
      ensures reply == DeleteReply(response)
      ensures reply.ok <==>
                response.Answered? && (response.status == 200 || response.status == 204 || response.status == 404)
      ensures !reply.ok ==> reply.applied == response.applied && reply.error == response.error
      ensures Value() == DropFromServer(old(Value()), id, reply)
    {
      if response.Answered? && (response.status == 200 || response.status == 204 || response.status == 404) {
        server := server - {id};
        return Answer(true, true, "");
      }
      if response.applied {
        server := server - {id};
      }
      return Answer(false, response.applied, response.error);
    }

    /** The end of a background task. The outcome of the file access is ignored. */
    method Settle(key: Key, reply: Reply, now: string, disk: Disk)
      modifies pendingStore
      ensures Value() == if hasPending then Settled(old(Value()), key, reply, now, disk) else old(Value())
    {
      if hasPending {
        if reply.ok {
          var _ := pendingStore.RemovePending(key, disk);
        } else {
          var _ := pendingStore.AddPending(key, Some(reply.error), now, disk);
        }
      }
    }

    method Save(t: Thread, writes: bool, response: Response, now: string, disk: Disk) returns (r: Result)
      modifies this, pendingStore
      ensures !writes ==> r == StorageError && Value() == old(Value())
      ensures writes ==> r == Ok(0) && local == old(local)[t.id := t]
      ensures writes && hasClient && hasPending ==>
                Value() == Saved(old(Value()), t, UpsertReply(response), now, disk)
      ensures writes && (t.isPrivate || !hasClient) ==> Value() == old(Value()).(local := local)
      ensures writes && hasClient && !hasPending && !t.isPrivate ==>
                Value() == PutOnServer(old(Value()).(local := local), t, UpsertReply(response))
    {
      if !writes {
        return StorageError;
      }
      local := local[t.id := t];
      if t.isPrivate {
        return Ok(0);
      }
      if hasClient {
        var reply := UpsertThread(t, response);
        Settle(Key(t.id, Upsert), reply, now, disk);
      }
      return Ok(0);
    }

    method SaveAndSync(t: Thread, writes: bool, response: Response) returns (r: Result)
      modifies this
      ensures !writes ==> r == StorageError && Value() == old(Value())
      ensures writes && hasClient ==> Value() == SavedAndSynced(old(Value()), t, UpsertReply(response))
      ensures writes && !hasClient ==> Value() == old(Value()).(local := old(local)[t.id := t])
      ensures writes ==> r == if hasClient && !t.isPrivate && !UpsertReply(response).ok then SyncError else Ok(0)
    {
      if !writes {
        return StorageError;
      }
      local := local[t.id := t];
      if t.isPrivate || !hasClient {
        return Ok(0);
      }
      var reply := UpsertThread(t, response);
      return if reply.ok then Ok(0) else SyncError;
    }

    method Remove(id: string, loads: bool, writes: bool, response: Response, now: string, disk: Disk)
      returns (r: Result)
      modifies this, pendingStore
      ensures !(loads && writes && id in old(local)) ==> Value() == old(Value())
      ensures r == if !loads then StorageError else if id !in old(local) then NotFound
                   else if !writes then StorageError else Ok(0)
      ensures r.Ok? ==> local == old(local) - {id}
      ensures r.Ok? && hasClient && hasPending ==>
                Value() == Deleted(old(Value()), id, DeleteReply(response), now, disk)
      ensures r.Ok? && (!hasClient || old(local)[id].isPrivate) ==> Value() == old(Value()).(local := local)
      ensures r.Ok? && hasClient && !hasPending && !old(local)[id].isPrivate ==>
                Value() == DropFromServer(old(Value()).(local := local), id, DeleteReply(response))
    {
      if !loads {
        return StorageError;
      }
      if id !in local {
        return NotFound;
      }
      if !writes {
        return StorageError;
      }
      var thread := local[id];
      local := local - {id};
      if thread.isPrivate || !hasClient {
        return Ok(0);
      }
      var reply := DeleteThread(id, response);
      Settle(Key(id, Delete), reply, now, disk);
      return Ok(0);
    }

    method RetryPending(weather: Weather) returns (r: Result)
      modifies this, pendingStore
      ensures hasClient && hasPending ==> (Value(), r) == RetryCalled(old(Value()), weather)
      ensures !(hasClient && hasPending) ==> r == Ok(0) && Value() == old(Value())
      ensures hasClient && hasPending && !weather.opens ==> r == StorageError && Value() == old(Value())
    {
      if !hasClient || !hasPending {
        return Ok(0);
      }
      if !weather.opens {
        return StorageError;
      }
      var entries := pendingStore.Contents();
      var count, i := 0, 0;
      while i < |entries|
        invariant 0 <= i <= |entries|
        invariant RetriedAll(Value(), entries, i, weather, count)
               == RetriedAll(old(Value()), entries, 0, weather, 0)
      {
        var key := entries[i].key;
        if key.operation.Upsert? && !weather.loads(i) {
          return StorageError;
        }
        var success := RetryOne(key, weather.responses(i), weather.disks(i));
        if success {
          count := count + 1;
        }
        i := i + 1;
      }
      return Ok(count);
    }

    /** The body of the retry loop for an entry whose thread could be read. */
    method RetryOne(key: Key, response: Response, disk: Disk) returns (success: bool)
      modifies this`server, pendingStore
      ensures (Value(), success) ==
              Retried(old(Value()), key,
                      if key.operation.Upsert? then UpsertReply(response) else DeleteReply(response), disk)
    {
      var reply: Reply;
      match key.operation {
        case Upsert =>
          if key.threadId !in local {
            return false;
          }
          reply := UpsertThread(local[key.threadId], response);
        case Delete =>
          reply := DeleteThread(key.threadId, response);
      }
      if reply.ok {
        var _ := pendingStore.RemovePending(key, disk);
      }
      return reply.ok;
    }
  }

  const NOTHING := World(map[], map[], [])

  // ----- Whole runs

  datatype Call =
    | SaveCall(t: Thread, writes: bool, reply: Reply, now: string, disk: Disk)
    | BlockingSaveCall(t: Thread, writes: bool, reply: Reply)
    | DeleteCall(id: string, loads: bool, writes: bool, reply: Reply, now: string, disk: Disk)
    | RetryCall(weather: Weather)

  function Performed(w: World, call: Call): World {
    match call
    case SaveCall(t, writes, reply, now, disk) => if writes then Saved(w, t, reply, now, disk) else w
    case BlockingSaveCall(t, writes, reply) => if writes then SavedAndSynced(w, t, reply) else w
    case DeleteCall(id, loads, writes, reply, now, disk) =>
      if loads && writes then Deleted(w, id, reply, now, disk) else w
    case RetryCall(weather) => RetryCalled(w, weather).0
  }

  function Run(calls: seq<Call>): World {
    if calls == [] then NOTHING else Performed(Run(calls[..|calls| - 1]), calls[|calls| - 1])
  }
}
