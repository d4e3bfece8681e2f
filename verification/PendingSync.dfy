/**
 The persisted queue of sync operations that failed and wait to be retried.

 The clock is a parameter. `retry_count` is a 32-bit counter and wraps.
 */
module PendingSync {
  import opened Conversation

  const COUNTER_RANGE: nat := 0x1_0000_0000

  datatype Operation = Upsert | Delete

  datatype Key = Key(threadId: string, operation: Operation)

  datatype Entry = Entry(key: Key, failedAt: string, retryCount: nat, lastError: Option<string>)

  /** The position of the first entry for `key`, or the length of the queue. */
  function Find(entries: seq<Entry>, key: Key): (i: nat)
    ensures i <= |entries|
    ensures i < |entries| ==> entries[i].key == key
    ensures forall j | 0 <= j < i :: entries[j].key != key
  {
    if entries == [] || entries[0].key == key then 0 else 1 + Find(entries[1..], key)
  }

  predicate Has(entries: seq<Entry>, key: Key) {
    exists e | e in entries :: e.key == key
  }

  function Added(entries: seq<Entry>, key: Key, error: Option<string>, now: string): seq<Entry> {
    var i := Find(entries, key);
    if i < |entries|
    then entries[i := Entry(key, now, (entries[i].retryCount + 1) % COUNTER_RANGE, error)]
    else entries + [Entry(key, now, 0, error)]
  }

  function Removed(entries: seq<Entry>, key: Key): seq<Entry> {
    if entries == [] then []
    else if entries[0].key == key then Removed(entries[1..], key)
    else [entries[0]] + Removed(entries[1..], key)
  }

  /** Whether the file behind the queue can be read and written during one access. */
  datatype Disk = Disk(loads: bool, saves: bool)

  const RELIABLE := Disk(true, true)

  /** What the file holds after an add: a queue that cannot be read is replaced by a fresh one. */
  function Queued(entries: seq<Entry>, key: Key, error: Option<string>, now: string, disk: Disk): seq<Entry> {
    if !disk.saves then entries else Added(if disk.loads then entries else [], key, error, now)
  }

  /** What the file holds after a removal. */
  function Unqueued(entries: seq<Entry>, key: Key, disk: Disk): seq<Entry> {
    if disk.loads && disk.saves then Removed(entries, key) else entries
  }

  predicate DistinctKeys(entries: seq<Entry>) {
    forall i, j | 0 <= i < j < |entries| :: entries[i].key != entries[j].key
  }

  class PendingSyncQueue {
    var entries: seq<Entry>

    constructor (entries: seq<Entry>)
      ensures this.entries == entries
    {
      this.entries := entries;
    }

    method Add(key: Key, error: Option<string>, now: string)
      modifies this
      ensures entries == Added(old(entries), key, error, now)
    {
      var i := 0;
      while i < |entries| && entries[i].key != key
        invariant 0 <= i <= |entries| && entries == old(entries)
        invariant forall j | 0 <= j < i :: entries[j].key != key
      {
        i := i + 1;
      }
      if i < |entries| {
        entries := entries[i := Entry(key, now, (entries[i].retryCount + 1) % COUNTER_RANGE, error)];
      } else {
        entries := entries + [Entry(key, now, 0, error)];
      }
    }

    /** `retain`: the entries of other keys, in place and in order. */
    method Remove(key: Key)
      modifies this
      ensures entries == Removed(old(entries), key)
    {
      var kept, i := [], 0;
      while i < |entries|
        invariant 0 <= i <= |entries| && entries == old(entries)
        invariant kept + Removed(entries[i..], key) == Removed(entries, key)
      {
        assert entries[i..][1..] == entries[i + 1..];
        if entries[i].key != key {
          kept := kept + [entries[i]];
        }
        i := i + 1;
      }
      assert kept == Removed(entries, key);
      entries := kept;
    }
  }

  /** The file behind the queue. Loading and saving may fail. */
  class PendingSyncStore {
    var file: Option<seq<Entry>>

    /** A missing file reads as an empty queue. */
    function Contents(): seq<Entry>
      reads this
    {
      if file.None? then [] else file.value
    }

    constructor ()
      ensures Contents() == []
    {
      file := None;
    }

    method AddPending(key: Key, error: Option<string>, now: string, disk: Disk) returns (ok: bool)
      modifies this
      ensures ok == disk.saves
      ensures Contents() == Queued(old(Contents()), key, error, now, disk)
    {
      var queue := new PendingSyncQueue(if disk.loads then Contents() else []);
      queue.Add(key, error, now);
      if disk.saves {
        file := Some(queue.entries);
      }
      ok := disk.saves;
    }

    /** The file is rewritten only if an entry went away. */
    method RemovePending(key: Key, disk: Disk) returns (ok: bool)
      modifies this
      ensures ok <==> disk.loads && (disk.saves || !Has(old(Contents()), key))
      ensures Contents() == Unqueued(old(Contents()), key, disk)
    {
      if !disk.loads {
        return false;
      }
      var queue := new PendingSyncQueue(Contents());
      var before := |queue.entries|;
      queue.Remove(key);
      RemovedLength(Contents(), key);
      if |queue.entries| < before {
        if disk.saves {
          file := Some(queue.entries);
        }
        return disk.saves;
      }
      return true;
    }
  }

  lemma {:induction false} RemovedMembers(entries: seq<Entry>, key: Key)
    ensures forall e :: e in Removed(entries, key) <==> e in entries && e.key != key
  {
    if entries != [] {
      RemovedMembers(entries[1..], key);
      assert entries == [entries[0]] + entries[1..];
    }
  }

  lemma {:induction false} RemovedLength(entries: seq<Entry>, key: Key)
    ensures |Removed(entries, key)| <= |entries|
    ensures Has(entries, key) <==> |Removed(entries, key)| < |entries|
    ensures !Has(entries, key) ==> Removed(entries, key) == entries
  {
    if entries != [] {
      RemovedLength(entries[1..], key);
      assert entries == [entries[0]] + entries[1..];
    }
  }

  lemma {:induction false} RemovedAppend(a: seq<Entry>, b: seq<Entry>, key: Key)
    ensures Removed(a + b, key) == Removed(a, key) + Removed(b, key)
  {
    if a == [] {
      assert a + b == b;
    } else {
      assert (a + b)[1..] == a[1..] + b;
      RemovedAppend(a[1..], b, key);
    }
  }

  /** With distinct keys, removing cuts out exactly one entry. */
  lemma {:induction false} RemovedCutsOne(entries: seq<Entry>, key: Key)
    requires DistinctKeys(entries)
    ensures var i := Find(entries, key);
            && Removed(entries, key) == (if i < |entries| then entries[..i] + entries[i + 1..] else entries)
            && (i < |entries| <==> Has(entries, key))
  {
    var i := Find(entries, key);
    if i < |entries| {
      var before, after := entries[..i], entries[i + 1..];
      assert entries[i] in entries;
      assert entries == before + ([entries[i]] + after);
      RemovedAppend(before, [entries[i]] + after, key);
      assert ([entries[i]] + after)[1..] == after;
      RemovedLength(before, key);
      RemovedLength(after, key);
    } else {
      RemovedLength(entries, key);
    }
  }

  lemma {:induction false} RemovedKeepsDistinct(entries: seq<Entry>, key: Key)
    requires DistinctKeys(entries)
    ensures DistinctKeys(Removed(entries, key))
  {
    RemovedCutsOne(entries, key);
  }

  lemma {:induction false} RemovedKeys(entries: seq<Entry>, key: Key)
    ensures forall k :: Has(Removed(entries, key), k) <==> Has(entries, k) && k != key
  {
    RemovedMembers(entries, key);
    forall k | Has(entries, k) && k != key ensures Has(Removed(entries, key), k) {
      var e :| e in entries && e.key == k;
      assert e in Removed(entries, key);
    }
  }

  lemma {:induction false} AddedSpec(entries: seq<Entry>, key: Key, error: Option<string>, now: string)
    ensures Has(Added(entries, key, error, now), key)
    ensures forall k | k != key :: Has(Added(entries, key, error, now), k) <==> Has(entries, k)
    ensures DistinctKeys(entries) ==> DistinctKeys(Added(entries, key, error, now))
  {
    var i, r := Find(entries, key), Added(entries, key, error, now);
    assert r[i].key == key && r[i] in r;
    assert forall j | 0 <= j < |r| && j != i :: r[j] == entries[j];
    forall k | k != key ensures Has(r, k) <==> Has(entries, k) {
      if Has(r, k) {
        var j :| 0 <= j < |r| && r[j].key == k;
        assert entries[j] in entries;
      }
      if Has(entries, k) {
        var j :| 0 <= j < |entries| && entries[j].key == k;
        assert r[j] in r;
      }
    }
  }

  // ----- What a failing file costs

  lemma {:induction false} QueuedKeys(entries: seq<Entry>, key: Key, error: Option<string>, now: string, disk: Disk)
    ensures forall k :: Has(Queued(entries, key, error, now, disk), k) <==>
                        (k == key && disk.saves) || (Has(entries, k) && (disk.loads || !disk.saves))
    ensures DistinctKeys(entries) ==> DistinctKeys(Queued(entries, key, error, now, disk))
  {
    if disk.saves {
      AddedSpec(if disk.loads then entries else [], key, error, now);
    }
  }

  /** An add keeps every recorded key, exactly unless it replaces an unreadable queue that records another. */
  lemma {:induction false} QueueingKeepsKeysIff(entries: seq<Entry>, key: Key, error: Option<string>, now: string,
                                                disk: Disk)
    ensures (forall k | Has(entries, k) :: Has(Queued(entries, key, error, now, disk), k)) <==>
            disk.loads || !disk.saves || (forall k | Has(entries, k) :: k == key)
  {
    QueuedKeys(entries, key, error, now, disk);
  }

  /** A removal keeps every other key, and the key itself exactly if the file fails. */
  lemma {:induction false} UnqueuedKeys(entries: seq<Entry>, key: Key, disk: Disk)
    ensures forall k :: Has(Unqueued(entries, key, disk), k) <==>
                        Has(entries, k) && (k != key || !disk.loads || !disk.saves)
    ensures forall e | e in Unqueued(entries, key, disk) :: e in entries
    ensures DistinctKeys(entries) ==> DistinctKeys(Unqueued(entries, key, disk))
  {
    RemovedKeys(entries, key);
    RemovedMembers(entries, key);
    if DistinctKeys(entries) {
      RemovedKeepsDistinct(entries, key);
    }
  }

  /** The entry of a key. */
  function EntryOf(entries: seq<Entry>, key: Key): Option<Entry> {
    var i := Find(entries, key);
    if i < |entries| then Some(entries[i]) else None
  }

  lemma {:induction false} EntryOfIffHas(entries: seq<Entry>, key: Key)
    ensures EntryOf(entries, key).Some? <==> Has(entries, key)
  {
    if Has(entries, key) {
      var e :| e in entries && e.key == key;
      var j :| 0 <= j < |entries| && entries[j] == e;
    }
  }

  lemma {:induction false} FindIs(entries: seq<Entry>, key: Key, i: nat)
    requires i <= |entries| && (i < |entries| ==> entries[i].key == key)
    requires forall j | 0 <= j < i :: entries[j].key != key
    ensures Find(entries, key) == i
  {
  }

  /** The entry of every key after an add. */
  lemma {:induction false} QueuedEntry(entries: seq<Entry>, key: Key, error: Option<string>, now: string, disk: Disk,
                                       k: Key)
    ensures EntryOf(Queued(entries, key, error, now, disk), k) ==
            if !disk.saves then EntryOf(entries, k)
            else if k != key then (if disk.loads then EntryOf(entries, k) else None)
            else
              var before := if disk.loads then EntryOf(entries, key) else None;
              Some(Entry(key, now, if before.Some? then (before.value.retryCount + 1) % COUNTER_RANGE else 0, error))
  {
    if disk.saves {
      AddedEntry(if disk.loads then entries else [], key, error, now, k);
    }
  }

  lemma {:induction false} AddedEntry(entries: seq<Entry>, key: Key, error: Option<string>, now: string, k: Key)
    ensures EntryOf(Added(entries, key, error, now), k) ==
            if k != key then EntryOf(entries, k)
            else
              var before := EntryOf(entries, key);
              Some(Entry(key, now, if before.Some? then (before.value.retryCount + 1) % COUNTER_RANGE else 0, error))
  {
    var i, r := Find(entries, key), Added(entries, key, error, now);
    assert forall j | 0 <= j < |entries| && j != i :: r[j] == entries[j];
    if k == key {
      FindIs(r, key, i);
    } else {
      var n := Find(entries, k);
      FindIs(r, k, if n < |entries| then n else |r|);
    }
  }

  /** The entry of every key after a removal. */
  lemma {:induction false} UnqueuedEntry(entries: seq<Entry>, key: Key, disk: Disk, k: Key)
    ensures EntryOf(Unqueued(entries, key, disk), k) ==
            if k == key && disk.loads && disk.saves then None else EntryOf(entries, k)
  {
    RemovedEntry(entries, key, k);
  }

  lemma {:induction false} RemovedEntry(entries: seq<Entry>, key: Key, k: Key)
    ensures EntryOf(Removed(entries, key), k) == if k == key then None else EntryOf(entries, k)
  {
    if entries != [] {
      var rest := Removed(entries[1..], key);
      RemovedEntry(entries[1..], key, k);
      if entries[0].key != key {
        assert ([entries[0]] + rest)[1..] == rest;
      }
    }
  }

  // ----- The queue as a map

  datatype Change = AddChange(key: Key, error: Option<string>, now: string) | RemoveChange(key: Key)

  function After(history: seq<Change>): seq<Entry> {
    if history == [] then [] else
      var before, last := After(history[..|history| - 1]), history[|history| - 1];
      match last
      case AddChange(key, error, now) => Added(before, key, error, now)
      case RemoveChange(key) => Removed(before, key)
  }

  /**
   What the history alone says about one key: when it was first added since it was
   last removed, how often it was added since, and the arguments of the last add.
   */
  datatype Record = Record(since: nat, adds: nat, error: Option<string>, now: string)

  function Lookup(history: seq<Change>, key: Key): Option<Record> {
    if history == [] then None else
      var n := |history| - 1;
      var before, last := Lookup(history[..n], key), history[n];
      if last.key != key then before
      else if last.RemoveChange? then None
      else if before.None? then Some(Record(n, 1, last.error, last.now))
      else Some(Record(before.value.since, before.value.adds + 1, last.error, last.now))
  }

  /** Entry `e` is what the history says about its key. */
  predicate Reflects(history: seq<Change>, e: Entry) {
    var found := Lookup(history, e.key);
    && found.Some? && found.value.adds >= 1 && found.value.since < |history|
    && e == Entry(e.key, found.value.now, (found.value.adds - 1) % 0x1_0000_0000, found.value.error)
  }

  /** When the key was first added since it was last removed. */
  function Since(history: seq<Change>, key: Key): nat {
    var found := Lookup(history, key);
    if found.Some? then found.value.since else |history|
  }

  ghost predicate Refines(history: seq<Change>, entries: seq<Entry>) {
    && (forall i | 0 <= i < |entries| :: Reflects(history, entries[i]))
    && (forall key :: Lookup(history, key).Some? ==> Has(entries, key))
    && (forall i, j | 0 <= i < j < |entries| :: Since(history, entries[i].key) < Since(history, entries[j].key))
  }

  lemma {:induction false} RefinedKeysDistinct(history: seq<Change>, entries: seq<Entry>)
    requires Refines(history, entries)
    ensures DistinctKeys(entries)
  {
    forall i, j | 0 <= i < j < |entries| ensures entries[i].key != entries[j].key {
      assert Since(history, entries[i].key) < Since(history, entries[j].key);
    }
  }

  lemma {:induction false} OtherKeysUnaffected(history: seq<Change>, change: Change, key: Key)
    requires key != change.key
    ensures Lookup(history + [change], key) == Lookup(history, key)
  {
    assert (history + [change])[..|history|] == history;
  }

  lemma {:induction false} KeptEntryReflects(history: seq<Change>, change: Change, e: Entry)
    requires Reflects(history, e) && e.key != change.key
    ensures Reflects(history + [change], e) && Since(history + [change], e.key) == Since(history, e.key)
  {
    OtherKeysUnaffected(history, change, e.key);
  }

  lemma CounterWraps(n: nat)
    ensures (n % COUNTER_RANGE + 1) % COUNTER_RANGE == (n + 1) % COUNTER_RANGE
  {
  }

  lemma {:induction false} LookupAfterAdd(history: seq<Change>, change: Change)
    requires change.AddChange?
    ensures var before := Lookup(history, change.key);
            Lookup(history + [change], change.key) ==
            if before.None? then Some(Record(|history|, 1, change.error, change.now))
            else Some(Record(before.value.since, before.value.adds + 1, change.error, change.now))
  {
    assert (history + [change])[..|history|] == history;
  }

  lemma {:induction false} BumpedEntryReflects(history: seq<Change>, change: Change, e: Entry)
    requires change.AddChange? && Reflects(history, e) && e.key == change.key
    ensures Reflects(history + [change], Entry(e.key, change.now, (e.retryCount + 1) % COUNTER_RANGE, change.error))
    ensures Since(history + [change], e.key) == Since(history, e.key)
  {
    LookupAfterAdd(history, change);
    CounterWraps(Lookup(history, e.key).value.adds - 1);
  }

  lemma {:induction false} NewEntryReflects(history: seq<Change>, change: Change)
    requires change.AddChange? && Lookup(history, change.key).None?
    ensures Reflects(history + [change], Entry(change.key, change.now, 0, change.error))
    ensures Since(history + [change], change.key) == |history|
  {
    LookupAfterAdd(history, change);
  }

  lemma {:induction false} AddRefines(history: seq<Change>, change: Change, entries: seq<Entry>)
    requires change.AddChange? && Refines(history, entries)
    ensures Refines(history + [change], Added(entries, change.key, change.error, change.now))
  {
    var h, r := history + [change], Added(entries, change.key, change.error, change.now);
    AddedSpec(entries, change.key, change.error, change.now);
    forall key | Lookup(h, key).Some? ensures Has(r, key) {
      if key != change.key {
        OtherKeysUnaffected(history, change, key);
      }
    }
    AddKeepsOrder(history, change, entries);
  }

  lemma {:induction false} AddKeepsOrder(history: seq<Change>, change: Change, entries: seq<Entry>)
    requires change.AddChange? && Refines(history, entries)
    ensures var h, r := history + [change], Added(entries, change.key, change.error, change.now);
            && (forall i | 0 <= i < |r| :: Reflects(h, r[i]))
            && (forall i, j | 0 <= i < j < |r| :: Since(h, r[i].key) < Since(h, r[j].key))
  {
    var h, r := history + [change], Added(entries, change.key, change.error, change.now);
    var n := Find(entries, change.key);
    RefinedKeysDistinct(history, entries);
    if n < |entries| {
      BumpedEntryReflects(history, change, entries[n]);
    } else {
      assert !Has(entries, change.key);
      NewEntryReflects(history, change);
    }
    forall i | 0 <= i < |r|
      ensures Reflects(h, r[i])
      ensures Since(h, r[i].key) == if i < |entries| then Since(history, entries[i].key) else |history|
    {
      if i != n {
        KeptEntryReflects(history, change, entries[i]);
      }
    }
  }

  lemma {:induction false} RemoveRefines(history: seq<Change>, change: Change, entries: seq<Entry>)
    requires change.RemoveChange? && Refines(history, entries)
    ensures Refines(history + [change], Removed(entries, change.key))
  {
    var h, r := history + [change], Removed(entries, change.key);
    RemovedKeys(entries, change.key);
    forall key | Lookup(h, key).Some? ensures Has(r, key) {
      assert h[..|history|] == history;
      OtherKeysUnaffected(history, change, key);
    }
    RemoveKeepsOrder(history, change, entries);
  }

  lemma {:induction false} KeptAfterRemove(history: seq<Change>, change: Change, entries: seq<Entry>, i: nat)
    requires change.RemoveChange? && Refines(history, entries) && i < |Removed(entries, change.key)|
    ensures var h, e := history + [change], Removed(entries, change.key)[i];
            var k := if i < Find(entries, change.key) then i else i + 1;
            && k < |entries| && e == entries[k]
            && Reflects(h, e) && Since(h, e.key) == Since(history, e.key)
  {
    RefinedKeysDistinct(history, entries);
    RemovedCutsOne(entries, change.key);
    var k := if i < Find(entries, change.key) then i else i + 1;
    assert Removed(entries, change.key)[i] == entries[k] && entries[k].key != change.key;
    KeptEntryReflects(history, change, entries[k]);
  }

  lemma {:induction false} RemoveKeepsOrder(history: seq<Change>, change: Change, entries: seq<Entry>)
    requires change.RemoveChange? && Refines(history, entries)
    ensures var h, r := history + [change], Removed(entries, change.key);
            && (forall i | 0 <= i < |r| :: Reflects(h, r[i]))
            && (forall i, j | 0 <= i < j < |r| :: Since(h, r[i].key) < Since(h, r[j].key))
  {
    var h, r := history + [change], Removed(entries, change.key);
    forall i | 0 <= i < |r| ensures Reflects(h, r[i]) {
      KeptAfterRemove(history, change, entries, i);
    }
    forall i, j | 0 <= i < j < |r| ensures Since(h, r[i].key) < Since(h, r[j].key) {
      KeptAfterRemove(history, change, entries, i);
      KeptAfterRemove(history, change, entries, j);
    }
  }

  /**
   Main result: whatever is added and removed, the vector is the map that the history
   describes, listed in first-add order.
   */
  lemma {:induction false} QueueRefinesMap(history: seq<Change>)
    ensures Refines(history, After(history)) && DistinctKeys(After(history))
  {
    if history != [] {
      var before, last := history[..|history| - 1], history[|history| - 1];
      QueueRefinesMap(before);
      assert history == before + [last];
      if last.AddChange? {
        AddRefines(before, last, After(before));
      } else {
        RemoveRefines(before, last, After(before));
      }
    }
    RefinedKeysDistinct(history, After(history));
  }

  // ----- The file as a map

  datatype Access = Access(change: Change, disk: Disk)

  /** What the file holds after all accesses. */
  function Stored(accesses: seq<Access>): seq<Entry> {
    if accesses == [] then [] else
      var before, last := Stored(accesses[..|accesses| - 1]), accesses[|accesses| - 1];
      match last.change
      case AddChange(key, error, now) => Queued(before, key, error, now, last.disk)
      case RemoveChange(key) => Unqueued(before, key, last.disk)
  }

  /** The changes that count: a failed access does not, and an add that cannot read starts over. */
  function Effective(accesses: seq<Access>): seq<Change> {
    if accesses == [] then [] else
      var before, last := Effective(accesses[..|accesses| - 1]), accesses[|accesses| - 1];
      if !last.disk.saves then before
      else if last.disk.loads then before + [last.change]
      else if last.change.AddChange? then [last.change]
      else before
  }

  /** Main result: over every sequence of accesses, failing or not, the file is the map of the changes that count. */
  lemma {:induction false} StoreRefinesMap(accesses: seq<Access>)
    ensures Refines(Effective(accesses), Stored(accesses)) && DistinctKeys(Stored(accesses))
  {
    StoredIsAfter(accesses);
    QueueRefinesMap(Effective(accesses));
  }

  lemma {:induction false} StoredIsAfter(accesses: seq<Access>)
    ensures Stored(accesses) == After(Effective(accesses))
  {
    if accesses != [] {
      var n := |accesses| - 1;
      var before, last := Effective(accesses[..n]), accesses[n];
      StoredIsAfter(accesses[..n]);
      assert (before + [last.change])[..|before|] == before;
      assert [last.change][..0] == [] && After([]) == [];
    }
  }
}
