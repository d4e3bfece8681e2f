/**
 The bounded queue of the analytics batch processor, which drops its oldest events.

 `enqueue`, `flush` and `shutdown` run concurrently; what they do to the queue they do
 under its lock, so every execution is a sequence of lock sections. `Ledger` records
 the sections' effects together with every event ever accepted.
 */
module BatchQueue {
  datatype QueuedEvent = QueuedEvent(distinctId: string, eventName: string, properties: string, timestamp: int)

  datatype Ledger = Ledger(
    queue: seq<QueuedEvent>,
    accepted: seq<QueuedEvent>,
    /** Positions in `accepted` of the dropped events. */
    dropped: seq<nat>,
    batches: seq<seq<QueuedEvent>>,
    /** How many events had been accepted when each batch was taken. */
    takes: seq<nat>)

  /** A lock section: the one of `enqueue`, or the one of `flush`. */
  datatype Section = Accept(event: QueuedEvent) | Take

  const EMPTY := Ledger([], [], [], [], [])

  class BatchProcessor {
    const maxQueueSize: nat
    const maxBatchSize: nat
    var queue: seq<QueuedEvent>
    var shutdown: bool
    /** A wake-up is stored for the flush loop. */
    var wake: bool
    ghost var ledger: Ledger

    ghost predicate Valid()
      reads this
    {
      ledger.queue == queue && Accounted(maxQueueSize, ledger)
    }

    constructor (maxQueueSize: nat, maxBatchSize: nat)
      ensures Valid() && ledger == EMPTY && !shutdown && !wake
      ensures this.maxQueueSize == maxQueueSize && this.maxBatchSize == maxBatchSize
    {
      this.maxQueueSize, this.maxBatchSize := maxQueueSize, maxBatchSize;
      queue, shutdown, wake, ledger := [], false, false, EMPTY;
      EmptyIsAccounted(maxQueueSize);
    }

    /** The lock section of `enqueue`. An empty queue cannot shrink, so with a size of zero the source panics here. */
    method AcceptLocked(event: QueuedEvent) returns (notify: bool)
      requires Valid() && 1 <= maxQueueSize
      modifies this`queue, this`ledger
      ensures Valid() && ledger == Applied(maxQueueSize, old(ledger), Accept(event))
      ensures ledger.accepted == old(ledger.accepted) + [event]
      ensures queue != [] && queue[|queue| - 1] == event
      ensures notify <==> |queue| >= maxBatchSize
    {
      while |queue| >= maxQueueSize
        invariant ledger == old(ledger)
        invariant |queue| <= |old(queue)| && IsEnd(queue, old(queue), |old(queue)| - |queue|)
        invariant |old(queue)| >= maxQueueSize ==> |queue| >= maxQueueSize - 1
        invariant |old(queue)| < maxQueueSize ==> queue == old(queue)
      {
        queue := queue[1..];
      }
      assert queue == WithoutOldest(old(queue), Excess(maxQueueSize, old(queue)));
      queue := queue + [event];
      AcceptKeepsAccounts(maxQueueSize, ledger, event);
      ledger := Applied(maxQueueSize, ledger, Accept(event));
      notify := |queue| >= maxBatchSize;
    }

    method Enqueue(event: QueuedEvent) returns (ok: bool)
      requires Valid() && (shutdown || 1 <= maxQueueSize)
      modifies this`queue, this`ledger, this`wake
      ensures Valid() && ok == !shutdown
      ensures !ok ==> ledger == old(ledger) && wake == old(wake)
      ensures ok ==> ledger == Applied(maxQueueSize, old(ledger), Accept(event))
      ensures ok ==> ledger.accepted == old(ledger.accepted) + [event]
      ensures ok ==> queue != [] && queue[|queue| - 1] == event
      ensures ok ==> wake == (old(wake) || |queue| >= maxBatchSize)
    {
      if shutdown {
        return false;
      }
      var notify := AcceptLocked(event);
      if notify {
        wake := true;
      }
      return true;
    }

    /** The lock section of `flush`: take everything. */
    method TakeLocked() returns (events: seq<QueuedEvent>)
      requires Valid()
      modifies this`queue, this`ledger
      ensures Valid() && queue == [] && events == old(queue)
      ensures ledger == Applied(maxQueueSize, old(ledger), Take)
      ensures ledger.accepted == old(ledger.accepted) && ledger.batches == old(ledger.batches) + [events]
    {
      TakeKeepsAccounts(maxQueueSize, ledger);
      ledger := Applied(maxQueueSize, ledger, Take);
      events := queue;
      queue := [];
    }

    method Shutdown()
      requires Valid()
      modifies this`shutdown, this`wake
      ensures Valid() && shutdown && wake
    {
      shutdown := true;
      wake := true;
    }
  }

  // ----- The sections

  function Excess(max: nat, queue: seq<QueuedEvent>): nat {
    if |queue| >= max then |queue| - max + 1 else 0
  }

  function WithoutOldest(queue: seq<QueuedEvent>, n: nat): (r: seq<QueuedEvent>)
    requires n <= |queue|
    ensures IsEnd(r, queue, n)
  {
    if n == 0 then queue else WithoutOldest(queue[1..], n - 1)
  }

  function Applied(max: nat, l: Ledger, section: Section): Ledger
    requires |l.queue| <= |l.accepted| && (section.Accept? ==> 1 <= max)
  {
    match section
    case Accept(event) =>
      var n, first := Excess(max, l.queue), |l.accepted| - |l.queue|;
      l.(queue := WithoutOldest(l.queue, n) + [event],
         accepted := l.accepted + [event],
         dropped := l.dropped + seq(n, i requires 0 <= i < n => first + i))
    case Take => l.(queue := [], batches := l.batches + [l.queue], takes := l.takes + [|l.accepted|])
  }

  function Run(max: nat, sections: seq<Section>): (l: Ledger)
    requires 1 <= max
    ensures |l.queue| <= |l.accepted|
  {
    if sections == [] then EMPTY else Applied(max, Run(max, sections[..|sections| - 1]), sections[|sections| - 1])
  }

  /** The events passed in by a run, in order. */
  function PassedIn(sections: seq<Section>): seq<QueuedEvent> {
    if sections == [] then [] else
      var before, last := PassedIn(sections[..|sections| - 1]), sections[|sections| - 1];
      if last.Accept? then before + [last.event] else before
  }

  /** How many events had been passed in at each take of a run. */
  function TakePoints(sections: seq<Section>): seq<nat> {
    if sections == [] then [] else
      var n := |sections| - 1;
      if sections[n].Take? then TakePoints(sections[..n]) + [|PassedIn(sections[..n])|] else TakePoints(sections[..n])
  }

  /** The events accepted are those passed in, as they are and in order, and the takes are those of the run. */
  lemma {:induction false} AcceptedIsPassedIn(max: nat, sections: seq<Section>)
    requires 1 <= max
    ensures Run(max, sections).accepted == PassedIn(sections)
    ensures Run(max, sections).takes == TakePoints(sections)
  {
    if sections != [] {
      AcceptedIsPassedIn(max, sections[..|sections| - 1]);
    }
  }

  // ----- Where every event goes

  /** The number of accepted events when event `i` was collected by a take, or by now. */
  function Due(takes: seq<nat>, now: nat, i: nat): nat {
    if takes == [] then now else if takes[0] > i then takes[0] else Due(takes[1..], now, i)
  }

  function PreviousTake(takes: seq<nat>, b: nat): nat
    requires b <= |takes|
  {
    if b == 0 then 0 else takes[b - 1]
  }

  function Max(a: int, b: int): int {
    if a >= b then a else b
  }

  /** The first event still in the queue for take `b`: new since the last take, and among the newest `max`. */
  function BatchStart(max: nat, takes: seq<nat>, b: nat): int
    requires b < |takes|
  {
    Max(PreviousTake(takes, b), takes[b] - max)
  }

  predicate Ascending(takes: seq<nat>, now: nat) {
    && (forall a, b | 0 <= a < b < |takes| :: takes[a] <= takes[b])
    && (forall b | 0 <= b < |takes| :: takes[b] <= now)
  }

  predicate TakesInOrder(l: Ledger) {
    |l.takes| == |l.batches| && Ascending(l.takes, |l.accepted|)
  }

  /** `queue` is what `accepted` holds from `start` on. */
  predicate IsEnd(queue: seq<QueuedEvent>, accepted: seq<QueuedEvent>, start: int) {
    && 0 <= start <= |accepted| == start + |queue|
    && forall i | 0 <= i < |queue| :: queue[i] == accepted[start + i]
  }

  predicate BatchAccounted(max: nat, l: Ledger, b: nat)
    requires TakesInOrder(l) && b < |l.takes|
  {
    l.batches[b] == l.accepted[BatchStart(max, l.takes, b)..l.takes[b]]
  }

  /**
   The whole ledger in closed form: each batch and the queue hold the events accepted
   since the take before, or the newest `max` of those; the rest, and only they, were
   dropped, each once and in order.
   */
  ghost predicate Accounted(max: nat, l: Ledger) {
    var n := |l.accepted|;
    && |l.queue| <= |l.accepted|
    && TakesInOrder(l)
    && IsEnd(l.queue, l.accepted, Max(PreviousTake(l.takes, |l.takes|), n - max))
    && (forall b | 0 <= b < |l.takes| :: BatchAccounted(max, l, b))
    && (forall i: nat :: i in l.dropped <==> i < n && Due(l.takes, n, i) > i + max)
    && (forall a, b | 0 <= a < b < |l.dropped| :: l.dropped[a] < l.dropped[b])
  }

  lemma {:induction false} EmptyIsAccounted(max: nat)
    ensures Accounted(max, EMPTY)
  {
  }

  lemma {:induction false} DueNow(takes: seq<nat>, now: nat, later: nat, i: nat)
    requires Ascending(takes, now)
    ensures PreviousTake(takes, |takes|) <= i ==> Due(takes, now, i) == now
    ensures i < PreviousTake(takes, |takes|) ==> Due(takes, later, i) == Due(takes, now, i)
    ensures i < now ==> i < Due(takes, now, i) <= now
  {
    if takes != [] && takes[0] <= i {
      DueNow(takes[1..], now, later, i);
    }
  }

  lemma {:induction false} DueAfterTake(takes: seq<nat>, now: nat, i: nat)
    requires i < now
    ensures Due(takes + [now], now, i) == Due(takes, now, i)
  {
    if takes == [] {
      assert (takes + [now])[1..] == [];
    } else if takes[0] <= i {
      assert (takes + [now])[1..] == takes[1..] + [now];
      DueAfterTake(takes[1..], now, i);
    }
  }

  lemma {:induction false} AcceptKeepsAccounts(max: nat, l: Ledger, event: QueuedEvent)
    requires 1 <= max && Accounted(max, l)
    ensures Accounted(max, Applied(max, l, Accept(event)))
  {
    AcceptKeepsBatches(max, l, event);
    AcceptKeepsDropped(max, l, event);
  }

  lemma {:induction false} AcceptKeepsBatches(max: nat, l: Ledger, event: QueuedEvent)
    requires 1 <= max && Accounted(max, l)
    ensures var l' := Applied(max, l, Accept(event));
            && |l'.queue| <= |l'.accepted| && TakesInOrder(l')
            && IsEnd(l'.queue, l'.accepted, Max(PreviousTake(l'.takes, |l'.takes|), |l'.accepted| - max))
            && forall b | 0 <= b < |l'.takes| :: BatchAccounted(max, l', b)
  {
    var l', n, last := Applied(max, l, Accept(event)), |l.accepted|, PreviousTake(l.takes, |l.takes|);
    assert last <= n && |l.queue| == n - Max(last, n - max);
    assert IsEnd(l'.queue, l'.accepted, Max(last, n + 1 - max));
    assert TakesInOrder(l');
    forall b | 0 <= b < |l.takes| ensures BatchAccounted(max, l', b) {
      assert BatchAccounted(max, l, b);
    }
  }

  /** The event at position `n - max` goes, if no take collected it. */
  lemma {:induction false} AcceptDropsOldest(max: nat, l: Ledger, event: QueuedEvent)
    requires 1 <= max && Accounted(max, l)
    ensures var n := |l.accepted|;
            Applied(max, l, Accept(event)).dropped ==
            if n - max >= PreviousTake(l.takes, |l.takes|) then l.dropped + [n - max] else l.dropped
  {
  }

  /** One more accepted event makes exactly the event at `n - max` overdue. */
  lemma {:induction false} OverdueAfterAccept(max: nat, takes: seq<nat>, n: nat, i: nat)
    requires 1 <= max && Ascending(takes, n)
    ensures i < n + 1 && Due(takes, n + 1, i) > i + max
       <==> (i < n && Due(takes, n, i) > i + max) || (i == n - max && PreviousTake(takes, |takes|) <= i)
  {
    DueNow(takes, n, n + 1, i);
    DueNow(takes, n + 1, n, i);
  }

  lemma {:induction false} AcceptKeepsDropped(max: nat, l: Ledger, event: QueuedEvent)
    requires 1 <= max && Accounted(max, l)
    ensures var l' := Applied(max, l, Accept(event));
            && (forall i: nat :: i in l'.dropped <==> i < |l'.accepted| && Due(l'.takes, |l'.accepted|, i) > i + max)
            && (forall a, b | 0 <= a < b < |l'.dropped| :: l'.dropped[a] < l'.dropped[b])
  {
    var l', n := Applied(max, l, Accept(event)), |l.accepted|;
    AcceptDropsOldest(max, l, event);
    forall i: nat ensures i in l'.dropped <==> i < n + 1 && Due(l.takes, n + 1, i) > i + max {
      OverdueAfterAccept(max, l.takes, n, i);
    }
    forall a | 0 <= a < |l.dropped| ensures l.dropped[a] < n - max {
      assert l.dropped[a] in l.dropped;
      DueNow(l.takes, n, n, l.dropped[a]);
    }
  }

  lemma {:induction false} TakeKeepsBatches(max: nat, l: Ledger)
    requires Accounted(max, l)
    ensures var l' := Applied(max, l, Take);
            TakesInOrder(l') && forall b | 0 <= b < |l'.takes| :: BatchAccounted(max, l', b)
  {
    var l', k := Applied(max, l, Take), |l.takes|;
    assert forall b | 0 <= b <= k :: PreviousTake(l'.takes, b) == PreviousTake(l.takes, b);
    forall b | 0 <= b < |l'.takes| ensures BatchAccounted(max, l', b) {
      if b < k {
        assert BatchAccounted(max, l, b) && l'.takes[b] == l.takes[b];
      }
    }
  }

  lemma {:induction false} TakeKeepsAccounts(max: nat, l: Ledger)
    requires Accounted(max, l)
    ensures Accounted(max, Applied(max, l, Take))
  {
    var l', n := Applied(max, l, Take), |l.accepted|;
    TakeKeepsBatches(max, l);
    assert PreviousTake(l'.takes, |l'.takes|) == n;
    forall i: nat ensures i in l'.dropped <==> i < n && Due(l'.takes, n, i) > i + max {
      if i < n {
        DueAfterTake(l.takes, n, i);
      }
    }
  }

  /** Main result: every interleaving of lock sections leaves the accounts in closed form. */
  lemma {:induction false} EveryRunIsAccounted(max: nat, sections: seq<Section>)
    requires 1 <= max
    ensures Accounted(max, Run(max, sections))
  {
    if sections == [] {
      EmptyIsAccounted(max);
    } else {
      var before := Run(max, sections[..|sections| - 1]);
      EveryRunIsAccounted(max, sections[..|sections| - 1]);
      match sections[|sections| - 1] {
        case Accept(event) => AcceptKeepsAccounts(max, before, event);
        case Take => TakeKeepsAccounts(max, before);
      }
    }
  }

  /** Event `i` is in batch `b`. */
  predicate InBatch(max: nat, l: Ledger, i: nat, b: nat)
    requires TakesInOrder(l)
  {
    b < |l.takes| && BatchStart(max, l.takes, b) <= i < l.takes[b]
  }

  predicate InQueue(l: Ledger, i: nat) {
    |l.accepted| - |l.queue| <= i < |l.accepted|
  }

  /** The take that collects event `i` is the first one after it was accepted. */
  lemma {:induction false} DueIsFirstTake(takes: seq<nat>, now: nat, i: nat, b: nat)
    requires Ascending(takes, now)
    requires b <= |takes| && PreviousTake(takes, b) <= i && (b < |takes| ==> i < takes[b])
    ensures Due(takes, now, i) == if b < |takes| then takes[b] else now
  {
    if b > 0 {
      assert takes[0] <= takes[b - 1];
      DueIsFirstTake(takes[1..], now, i, b - 1);
    }
  }

  lemma {:induction false} FirstTakeAfter(takes: seq<nat>, i: nat) returns (b: nat)
    ensures b <= |takes| && PreviousTake(takes, b) <= i && (b < |takes| ==> i < takes[b])
    ensures forall c | 0 <= c < b :: takes[c] <= i
  {
    b := 0;
    while b < |takes| && takes[b] <= i
      invariant b <= |takes| && PreviousTake(takes, b) <= i
      invariant forall c | 0 <= c < b :: takes[c] <= i
    {
      b := b + 1;
    }
  }

  /**
   Main result: each accepted event is in exactly one place: dropped, in one batch, or in
   the queue. It is dropped exactly if `max` newer events were accepted with no take
   between.
   */
  lemma {:induction false} OneFateEach(max: nat, l: Ledger, i: nat)
    requires 1 <= max && Accounted(max, l) && i < |l.accepted|
    ensures i in l.dropped <==> !InQueue(l, i) && forall b: nat | b < |l.takes| :: !InBatch(max, l, i, b)
    ensures forall b: nat, c: nat | InBatch(max, l, i, b) && InBatch(max, l, i, c) :: b == c
    ensures forall b: nat | InBatch(max, l, i, b) :: !InQueue(l, i)
    ensures i in l.dropped <==>
            i + max < |l.accepted| && forall b | 0 <= b < |l.takes| :: !(i < l.takes[b] <= i + max)
  {
    var n, takes := |l.accepted|, l.takes;
    var b := FirstTakeAfter(takes, i);
    DueIsFirstTake(takes, n, i, b);
    forall c: nat | c < |takes| ensures InBatch(max, l, i, c) <==> c == b && takes[b] <= i + max {
      OnlyFirstTakeCollects(max, l, i, b, c);
    }
    assert |l.queue| == n - Max(PreviousTake(takes, |takes|), n - max);
    if b < |takes| {
      assert takes[b] <= takes[|takes| - 1];
      assert !InQueue(l, i);
      assert InBatch(max, l, i, b) <==> takes[b] <= i + max;
    }
  }

  lemma {:induction false} OnlyFirstTakeCollects(max: nat, l: Ledger, i: nat, b: nat, c: nat)
    requires TakesInOrder(l) && c < |l.takes|
    requires b <= |l.takes| && PreviousTake(l.takes, b) <= i && (b < |l.takes| ==> i < l.takes[b])
    requires forall c | 0 <= c < b :: l.takes[c] <= i
    ensures InBatch(max, l, i, c) <==> c == b && l.takes[b] <= i + max
  {
    assert b < c ==> l.takes[b] <= PreviousTake(l.takes, c);
  }

  /** Batches in take order keep acceptance order: none starts before an earlier one ends. */
  lemma {:induction false} BatchesKeepOrder(max: nat, l: Ledger, b: nat, c: nat)
    requires Accounted(max, l) && b < c < |l.takes|
    ensures l.takes[b] <= BatchStart(max, l.takes, c) <= l.takes[c]
    ensures l.batches[b] == l.accepted[BatchStart(max, l.takes, b)..l.takes[b]]
    ensures l.batches[c] == l.accepted[BatchStart(max, l.takes, c)..l.takes[c]]
  {
    assert BatchAccounted(max, l, b) && BatchAccounted(max, l, c);
    assert l.takes[b] <= PreviousTake(l.takes, c) <= l.takes[c];
  }
}
