/** The bounded, deduplicated work queue (`work_queue.rs` of cherry-pit-wq): the queue as one caller
    sees it, and the machine of interleaved producers, consumers and `close`. */
module WorkQueues {
  import opened Prelude

  type Key = string

  /** A job; `ticket` stands for its context, source and correlation. */
  datatype Job = Job(key: Key, ticket: nat)

  /** What a `dequeue` finds: a job, the end of a closed queue, or nothing yet. */
  datatype Delivery = Delivered(job: Job) | Drained | Waits

  datatype EnqueueResult = Accepted | Deduplicated | QueueFull

  // ---------------------------------------------------------------------
  // One caller
  // ---------------------------------------------------------------------

  function KeysOf(jobs: seq<Job>): set<Key> {
    set job | job in jobs :: job.key
  }

  ghost predicate DistinctKeys(jobs: seq<Job>) {
    forall i, j :: 0 <= i < j < |jobs| ==> jobs[i].key != jobs[j].key
  }

  /** What an uninterrupted `enqueue` answers. */
  function Answer(capacity: nat, open: bool, channel: seq<Job>, pending: set<Key>, job: Job): EnqueueResult {
    if job.key in pending then Deduplicated
    else if open && |channel| < capacity then Accepted
    else QueueFull
  }

  /** The channel after a batch: each item that finds neither its key queued nor the queue full. */
  function AfterBatch(capacity: nat, open: bool, channel: seq<Job>, items: seq<Job>): seq<Job> {
    if items == [] then channel else
    var before := AfterBatch(capacity, open, channel, items[..|items| - 1]);
    var job := items[|items| - 1];
    if Answer(capacity, open, before, KeysOf(before), job).Accepted? then before + [job] else before
  }

  class WorkQueue {
    const capacity: nat
    var open: bool
    var channel: seq<Job>
    var pending: set<Key>

    ghost predicate Valid()
      reads this
    {
      0 < capacity && |channel| <= capacity && DistinctKeys(channel) && pending == KeysOf(channel)
    }

    /** A zero capacity panics in the source. */
    constructor (capacity: nat)
      requires 0 < capacity
      ensures Valid() && open && channel == [] && this.capacity == capacity
    {
      this.capacity := capacity;
      this.open := true;
      this.channel := [];
      this.pending := {};
    }

    method Enqueue(job: Job) returns (r: EnqueueResult)
      requires Valid()
      modifies this`channel, this`pending
      ensures Valid()
      ensures r == Answer(capacity, open, old(channel), KeysOf(old(channel)), job)
      ensures channel == if r.Accepted? then old(channel) + [job] else old(channel)
    {
      if job.key in pending {
        return Deduplicated;
      }
      pending := pending + {job.key};
      if !open || |channel| == capacity {
        pending := pending - {job.key};
        assert pending == old(pending);
        return QueueFull;
      }
      KeysGrow(channel, job);
      channel := channel + [job];
      r := Accepted;
    }

    /** The oldest job, whose key is free again; on an empty queue the end once it is closed, and until
        then a wait. */
    method Dequeue() returns (r: Delivery)
      requires Valid()
      modifies this`channel, this`pending
      ensures Valid()
      ensures r.Drained? <==> old(channel) == [] && !open
      ensures r.Waits? <==> old(channel) == [] && open
      ensures !r.Delivered? ==> channel == []
      ensures r.Delivered? ==> old(channel) == [r.job] + channel && r.job.key !in pending
    {
      if channel == [] {
        return if open then Waits else Drained;
      }
      var job := channel[0];
      KeysShrink(channel);
      channel := channel[1..];
      pending := pending - {job.key};
      r := Delivered(job);
    }

    method Close()
      modifies this`open
      ensures !open
    {
      open := false;
    }

    /** The counts are exact and the channel gains exactly the accepted items in their order. */
    method EnqueueBatch(items: seq<Job>) returns (accepted: nat, deduplicated: nat, rejected: nat)
      requires Valid()
      modifies this`channel, this`pending
      ensures Valid()
      ensures channel == AfterBatch(capacity, open, old(channel), items)
      ensures accepted + deduplicated + rejected == |items| && |channel| == |old(channel)| + accepted
      ensures !open ==> accepted == 0
      ensures 0 < rejected && open ==> |channel| == capacity
    {
      accepted, deduplicated, rejected := 0, 0, 0;
      var i := 0;
      while i < |items|
        invariant 0 <= i <= |items| && Valid()
        invariant channel == AfterBatch(capacity, open, old(channel), items[..i])
        invariant accepted + deduplicated + rejected == i && |channel| == |old(channel)| + accepted
        invariant !open ==> accepted == 0
        invariant 0 < rejected && open ==> |channel| == capacity
      {
        assert items[..i + 1][..i] == items[..i];
        var r := Enqueue(items[i]);
        match r {
          case Accepted => accepted := accepted + 1;
          case Deduplicated => deduplicated := deduplicated + 1;
          case QueueFull => rejected := rejected + 1;
        }
        i := i + 1;
      }
      assert items[..i] == items;
    }
  }

  lemma KeysGrow(jobs: seq<Job>, job: Job)
    requires job.key !in KeysOf(jobs) && DistinctKeys(jobs)
    ensures KeysOf(jobs + [job]) == KeysOf(jobs) + {job.key} && DistinctKeys(jobs + [job])
  {
  }

  lemma KeysShrink(jobs: seq<Job>)
    requires jobs != [] && DistinctKeys(jobs)
    ensures KeysOf(jobs[1..]) == KeysOf(jobs) - {jobs[0].key} && DistinctKeys(jobs[1..])
  {
  }

  /** After any batch each key is queued at most once, nothing queued before is lost or reordered, and
      an item's key is queued at the end unless the batch met a full or closed queue. */
  lemma {:induction false} BatchKeepsOrder(capacity: nat, open: bool, channel: seq<Job>, items: seq<Job>)
    requires DistinctKeys(channel) && |channel| <= capacity
    ensures var after := AfterBatch(capacity, open, channel, items);
      && DistinctKeys(after) && |after| <= capacity && channel <= after
      && (forall i :: |channel| <= i < |after| ==> after[i] in items)
      && (open && |after| < capacity ==> KeysOf(items) <= KeysOf(after))
  {
    if items != [] {
      var n := |items| - 1;
      BatchKeepsOrder(capacity, open, channel, items[..n]);
      var before := AfterBatch(capacity, open, channel, items[..n]);
      assert forall job :: job in items ==> job in items[..n] || job == items[n];
      if items[n].key !in KeysOf(before) {
        KeysGrow(before, items[n]);
      }
    }
  }

  // ---------------------------------------------------------------------
  // Interleaved producers, consumers and close
  // ---------------------------------------------------------------------

  type Tid = nat

  /** A producer after its insert, holding the sender lock, or refused and about to remove its key; a
      consumer holding the receiver lock, or between receive and remove. */
  datatype Pc = Idle | Inserted(job: Job) | Sending(job: Job) | Refused(job: Job) | Waiting | Received(job: Job)

  /** The shared fields with the two locks, the callers, and the jobs accepted and received so far. */
  datatype Queue = Queue(
    capacity: nat,
    open: bool,
    channel: seq<Job>,
    pending: set<Key>,
    senderLock: Option<Tid>,
    receiverLock: Option<Tid>,
    callers: map<Tid, Pc>,
    accepted: seq<Job>,
    received: seq<Job>)

  datatype Action =
    | Insert(t: Tid, job: Job)
    | LockSender(t: Tid)
    | TrySend(t: Tid)
    | TakeBack(t: Tid)
    | Close
    | LockReceiver(t: Tid)
    | Receive(t: Tid)
    | Release(t: Tid)
    | StopWaiting(t: Tid)

  function PcOf(q: Queue, t: Tid): Pc {
    if t in q.callers then q.callers[t] else Idle
  }

  function Goto(q: Queue, t: Tid, pc: Pc): Queue {
    q.(callers := q.callers[t := pc])
  }

  predicate Enabled(q: Queue, a: Action) {
    match a
    case Insert(t, _) => PcOf(q, t).Idle?
    case LockSender(t) => PcOf(q, t).Inserted? && q.senderLock.None?
    case TrySend(t) => PcOf(q, t).Sending?
    case TakeBack(t) => PcOf(q, t).Refused?
    case Close => q.senderLock.None?
    case LockReceiver(t) => PcOf(q, t).Idle? && q.receiverLock.None?
    case Receive(t) => PcOf(q, t).Waiting? && q.channel != []
    case Release(t) => PcOf(q, t).Received?
    case StopWaiting(t) => PcOf(q, t).Waiting?
  }

  function Do(q: Queue, a: Action): Queue
    requires Enabled(q, a)
  {
    match a
    case Insert(t, job) =>
      if job.key in q.pending then q else Goto(q.(pending := q.pending + {job.key}), t, Inserted(job))
    case LockSender(t) => Goto(q.(senderLock := Some(t)), t, Sending(PcOf(q, t).job))
    case TrySend(t) =>
      var job := PcOf(q, t).job;
      if q.open && |q.channel| < q.capacity then
        Goto(q.(channel := q.channel + [job], accepted := q.accepted + [job], senderLock := None), t, Idle)
      else Goto(q, t, Refused(job))
    case TakeBack(t) => Goto(q.(pending := q.pending - {PcOf(q, t).job.key}, senderLock := None), t, Idle)
    case Close => q.(open := false)
    case LockReceiver(t) => Goto(q.(receiverLock := Some(t)), t, Waiting)
    case Receive(t) =>
      Goto(q.(channel := q.channel[1..], received := q.received + [q.channel[0]]), t, Received(q.channel[0]))
    case Release(t) => Goto(q.(pending := q.pending - {PcOf(q, t).job.key}, receiverLock := None), t, Idle)
    case StopWaiting(t) => Goto(q.(receiverLock := None), t, Idle)
  }

  function New(capacity: nat): Queue {
    Queue(capacity, true, [], {}, None, None, map[], [], [])
  }

  ghost predicate IsRun(capacity: nat, trace: seq<Queue>, actions: seq<Action>) {
    && |trace| == |actions| + 1 && trace[0] == New(capacity)
    && forall i :: 0 <= i < |actions| ==> Enabled(trace[i], actions[i]) && trace[i + 1] == Do(trace[i], actions[i])
  }

  /** The key a caller holds: a producer from insert until its job is sent or taken back, a consumer
      from receive until it removes the key. */
  predicate HoldsKey(pc: Pc, k: Key) {
    (pc.Inserted? || pc.Sending? || pc.Refused? || pc.Received?) && pc.job.key == k
  }

  ghost predicate Holds(q: Queue, t: Tid, k: Key) {
    HoldsKey(PcOf(q, t), k)
  }

  ghost predicate Held(q: Queue, k: Key) {
    exists t :: Holds(q, t, k)
  }

  ghost predicate Queued(q: Queue, k: Key) {
    exists i :: 0 <= i < |q.channel| && q.channel[i].key == k
  }

  /** Every pending key is held by exactly one caller or by exactly one queued job, never both, and
      every held or queued key is pending. */
  ghost predicate OneHolder(q: Queue) {
    && (forall k :: k in q.pending <==> Queued(q, k) || Held(q, k))
    && (forall t, k :: Holds(q, t, k) ==> !Queued(q, k))
    && (forall t, u, k :: Holds(q, t, k) && Holds(q, u, k) ==> t == u)
    && DistinctKeys(q.channel)
  }

  /** Each lock is taken exactly by the caller in the section it guards. */
  ghost predicate Locked(q: Queue) {
    && (forall t: Tid :: PcOf(q, t).Sending? || PcOf(q, t).Refused? <==> q.senderLock == Some(t))
    && (forall t: Tid :: PcOf(q, t).Waiting? || PcOf(q, t).Received? <==> q.receiverLock == Some(t))
  }

  ghost predicate Inv(q: Queue) {
    && OneHolder(q) && Locked(q)
    && |q.channel| <= q.capacity
    && q.accepted == q.received + q.channel
  }

  /** When one caller moves, only what that caller holds changes. */
  lemma HeldAfter(q: Queue, q': Queue, t: Tid, pc: Pc)
    requires q'.callers == q.callers[t := pc]
    requires forall u, w, k :: Holds(q, u, k) && Holds(q, w, k) ==> u == w
    ensures forall k :: Held(q', k) <==> HoldsKey(pc, k) || (Held(q, k) && !Holds(q, t, k))
    ensures forall u, k :: Holds(q', u, k) <==> if u == t then HoldsKey(pc, k) else Holds(q, u, k)
  {
    assert forall u, k :: Holds(q', u, k) <==> if u == t then HoldsKey(pc, k) else Holds(q, u, k);
    forall k ensures Held(q', k) <==> HoldsKey(pc, k) || (Held(q, k) && !Holds(q, t, k)) {
      if HoldsKey(pc, k) {
        assert Holds(q', t, k);
      } else if Held(q, k) && !Holds(q, t, k) {
        var u :| Holds(q, u, k);
        assert Holds(q', u, k);
      }
      if Held(q', k) {
        var u :| Holds(q', u, k);
        assert u == t || Holds(q, u, k);
      }
    }
  }

  lemma InsertKeepsHolders(q: Queue, t: Tid, job: Job)
    requires OneHolder(q) && PcOf(q, t).Idle? && job.key !in q.pending
    ensures OneHolder(Do(q, Insert(t, job)))
  {
    var q' := Do(q, Insert(t, job));
    assert forall k :: Queued(q', k) == Queued(q, k);
    HeldAfter(q, q', t, PcOf(q', t));
    assert forall k :: !Holds(q, t, k);
  }

  /** A move that keeps what the caller holds keeps everything. */
  lemma MoveKeepsHolders(q: Queue, q': Queue, t: Tid, pc: Pc)
    requires OneHolder(q) && q'.callers == q.callers[t := pc] && q'.channel == q.channel && q'.pending == q.pending
    requires forall k :: HoldsKey(pc, k) == Holds(q, t, k)
    ensures OneHolder(q')
  {
    assert forall k :: Queued(q', k) == Queued(q, k);
    HeldAfter(q, q', t, pc);
  }

  lemma SendKeepsHolders(q: Queue, t: Tid)
    requires OneHolder(q) && PcOf(q, t).Sending? && q.open && |q.channel| < q.capacity
    ensures OneHolder(Do(q, TrySend(t)))
  {
    var q', job := Do(q, TrySend(t)), PcOf(q, t).job;
    var n := |q.channel|;
    assert Holds(q, t, job.key);
    assert forall i :: 0 <= i < n ==> q'.channel[i] == q.channel[i] && Queued(q, q.channel[i].key);
    assert q'.channel[n] == job;
    assert forall k :: Queued(q', k) <==> Queued(q, k) || k == job.key;
    HeldAfter(q, q', t, PcOf(q', t));
    assert forall k :: Holds(q, t, k) <==> k == job.key;
  }

  lemma ReceiveKeepsHolders(q: Queue, t: Tid)
    requires OneHolder(q) && PcOf(q, t).Waiting? && q.channel != []
    ensures OneHolder(Do(q, Receive(t)))
  {
    var q', job := Do(q, Receive(t)), q.channel[0];
    assert forall i :: 0 <= i < |q'.channel| ==> q'.channel[i] == q.channel[i + 1];
    assert Queued(q, job.key);
    forall k ensures Queued(q', k) <==> Queued(q, k) && k != job.key {
      if Queued(q, k) && k != job.key {
        var i :| 0 <= i < |q.channel| && q.channel[i].key == k;
        assert q'.channel[i - 1].key == k;
      }
    }
    HeldAfter(q, q', t, PcOf(q', t));
    assert forall k :: !Holds(q, t, k);
  }

  lemma DropKeepsHolders(q: Queue, q': Queue, t: Tid)
    requires OneHolder(q) && (PcOf(q, t).Refused? || PcOf(q, t).Received?)
    requires q'.callers == q.callers[t := Idle] && q'.channel == q.channel
    requires q'.pending == q.pending - {PcOf(q, t).job.key}
    ensures OneHolder(q')
  {
    var key := PcOf(q, t).job.key;
    assert Holds(q, t, key) && !Queued(q, key);
    assert forall k :: Queued(q', k) == Queued(q, k);
    HeldAfter(q, q', t, PcOf(q', t));
    assert forall k :: Holds(q, t, k) <==> k == key;
  }

  lemma ActionKeepsHolders(q: Queue, a: Action)
    requires OneHolder(q) && Enabled(q, a)
    ensures OneHolder(Do(q, a))
  {
    var q' := Do(q, a);
    hide OneHolder;
    match a
    case Insert(t, job) =>
      if job.key !in q.pending {
        InsertKeepsHolders(q, t, job);
      }
    case TrySend(t) =>
      if q.open && |q.channel| < q.capacity {
        SendKeepsHolders(q, t);
      } else {
        MoveKeepsHolders(q, q', t, PcOf(q', t));
      }
    case TakeBack(t) => DropKeepsHolders(q, q', t);
    case Release(t) => DropKeepsHolders(q, q', t);
    case Receive(t) => ReceiveKeepsHolders(q, t);
    case Close => CloseKeepsHolders(q);
    case LockSender(t) => MoveKeepsHolders(q, q', t, PcOf(q', t));
    case LockReceiver(t) => MoveKeepsHolders(q, q', t, PcOf(q', t));
    case StopWaiting(t) => MoveKeepsHolders(q, q', t, PcOf(q', t));
  }

  lemma CloseKeepsHolders(q: Queue)
    requires OneHolder(q)
    ensures OneHolder(q.(open := false))
  {
    var q' := q.(open := false);
    assert forall k :: Queued(q', k) == Queued(q, k);
    assert forall t, k :: Holds(q', t, k) == Holds(q, t, k);
    assert forall k :: Held(q', k) == Held(q, k);
  }

  lemma ActionKeepsLocks(q: Queue, a: Action)
    requires Locked(q) && Enabled(q, a)
    ensures Locked(Do(q, a))
  {
  }

  lemma ActionKeepsInv(q: Queue, a: Action)
    requires Inv(q) && Enabled(q, a)
    ensures Inv(Do(q, a))
  {
    ActionKeepsHolders(q, a);
    ActionKeepsLocks(q, a);
    hide OneHolder;
    hide Locked;
    if a.Receive? {
      assert q.received + q.channel == (q.received + [q.channel[0]]) + q.channel[1..];
    }
  }

  lemma {:induction false} RunsKeepInv(capacity: nat, trace: seq<Queue>, actions: seq<Action>, n: nat)
    requires IsRun(capacity, trace, actions) && n < |trace|
    ensures Inv(trace[n]) && trace[n].capacity == capacity
  {
    if n == 0 {
      assert forall t, k :: !Holds(New(capacity), t, k);
      assert Inv(New(capacity));
    } else {
      hide Inv;
      RunsKeepInv(capacity, trace, actions, n - 1);
      ActionKeepsInv(trace[n - 1], actions[n - 1]);
    }
  }

  /** In every interleaving: each pending key has exactly one holder, so the channel never holds two
      jobs for one key and never exceeds its capacity; at most one consumer is between receive and
      remove; and what left the channel is exactly the oldest accepted jobs, in order. */
  lemma EveryPendingKeyHasOneHolder(capacity: nat, trace: seq<Queue>, actions: seq<Action>, n: nat)
    requires IsRun(capacity, trace, actions) && n < |trace|
    ensures OneHolder(trace[n])
    ensures DistinctKeys(trace[n].channel) && |trace[n].channel| <= capacity
    ensures forall t, u :: PcOf(trace[n], t).Received? && PcOf(trace[n], u).Received? ==> t == u
    ensures trace[n].accepted == trace[n].received + trace[n].channel
  {
    RunsKeepInv(capacity, trace, actions, n);
  }

  /** Once nobody is inside a call, the pending set is exactly the keys in the channel: no refused or
      delivered job leaves its key behind. */
  lemma QuietQueueOwnsItsKeys(capacity: nat, trace: seq<Queue>, actions: seq<Action>, n: nat)
    requires IsRun(capacity, trace, actions) && n < |trace|
    requires forall t :: PcOf(trace[n], t).Idle? || PcOf(trace[n], t).Waiting?
    ensures trace[n].pending == KeysOf(trace[n].channel)
  {
    RunsKeepInv(capacity, trace, actions, n);
    var q := trace[n];
    assert forall t, k :: !Holds(q, t, k);
    assert forall i :: 0 <= i < |q.channel| ==> q.channel[i] in q.channel;
    assert forall k :: k in KeysOf(q.channel) <==> Queued(q, k);
  }

  /** A closed queue accepts nothing more, and its channel only shrinks. */
  lemma {:induction false} ClosedStaysClosed(capacity: nat, trace: seq<Queue>, actions: seq<Action>, i: nat, j: nat)
    requires IsRun(capacity, trace, actions) && i <= j < |trace| && !trace[i].open
    ensures !trace[j].open && trace[j].accepted == trace[i].accepted
    decreases j
  {
    if i < j {
      ClosedStaysClosed(capacity, trace, actions, i, j - 1);
    }
  }

  /** One `enqueue` with no step of another caller in between. */
  function Uninterrupted(q: Queue, t: Tid, job: Job): Queue
    requires PcOf(q, t).Idle? && q.senderLock.None?
  {
    if job.key in q.pending then Do(q, Insert(t, job)) else
    var sent := Do(Do(Do(q, Insert(t, job)), LockSender(t)), TrySend(t));
    if PcOf(sent, t).Refused? then Do(sent, TakeBack(t)) else sent
  }

  /** The interleaved steps, run by one caller alone, are the sequential `Enqueue`. */
  lemma UninterruptedIsEnqueue(q: Queue, t: Tid, job: Job)
    requires PcOf(q, t).Idle? && q.senderLock.None?
    ensures var q' := Uninterrupted(q, t, job);
      var accepted := Answer(q.capacity, q.open, q.channel, q.pending, job).Accepted?;
      && q'.channel == (if accepted then q.channel + [job] else q.channel)
      && q'.pending == (if accepted then q.pending + {job.key} else q.pending)
      && q'.senderLock.None? && q'.open == q.open && forall u :: PcOf(q', u) == PcOf(q, u)
  {
  }

  // ---------------------------------------------------------------------
  // What a deduplicated caller can rely on
  // ---------------------------------------------------------------------

  predicate Producing(pc: Pc) {
    pc.Inserted? || pc.Sending? || pc.Refused?
  }

  /** A caller is deduplicated exactly against one of three: a queued job, a job just received, or a
      producer that has not sent yet. Only the first is queued. */
  lemma DeduplicatedAgainst(capacity: nat, trace: seq<Queue>, actions: seq<Action>, n: nat, k: Key)
    requires IsRun(capacity, trace, actions) && n < |trace| && k in trace[n].pending
    ensures Queued(trace[n], k) <==> !Held(trace[n], k)
    ensures Held(trace[n], k) ==>
      exists t :: Holds(trace[n], t, k) && (Producing(PcOf(trace[n], t)) || PcOf(trace[n], t).Received?)
  {
    RunsKeepInv(capacity, trace, actions, n);
  }

  /** A send with room is accepted; otherwise the producer is refused. */
  predicate HasRoom(q: Queue) {
    q.open && |q.channel| < q.capacity
  }

  lemma {:induction false} ProducerKeepsJob(capacity: nat, trace: seq<Queue>, actions: seq<Action>, i: nat, j: nat,
                                            t: Tid)
    requires IsRun(capacity, trace, actions) && i <= j < |trace| && Producing(PcOf(trace[i], t))
    requires Producing(PcOf(trace[j], t))
    requires forall k :: i <= k <= j ==> Producing(PcOf(trace[k], t))
    ensures PcOf(trace[j], t).job == PcOf(trace[i], t).job
    decreases j
  {
    if i < j {
      ProducerKeepsJob(capacity, trace, actions, i, j - 1, t);
      assert Producing(PcOf(trace[j - 1], t)) && Producing(PcOf(trace[j], t));
    }
  }

  lemma ProducerLeaves(q: Queue, a: Action, t: Tid)
    requires Inv(q) && Enabled(q, a) && Producing(PcOf(q, t)) && !Producing(PcOf(Do(q, a), t))
    ensures (a == TrySend(t) && HasRoom(q)) || a == TakeBack(t)
    ensures Queued(Do(q, a), PcOf(q, t).job.key) <==> a == TrySend(t)
  {
    var q', job := Do(q, a), PcOf(q, t).job;
    assert a.Close? || a.t == t;
    assert Holds(q, t, job.key);
    if a == TrySend(t) {
      assert q'.channel[|q.channel|] == job;
    } else {
      assert q'.channel == q.channel;
    }
  }

  ghost predicate SendsWithRoom(trace: seq<Queue>, actions: seq<Action>, k: nat, t: Tid) {
    k < |actions| && k < |trace| && actions[k] == TrySend(t) && HasRoom(trace[k])
  }

  /** The fate of a key held by a producer, in every run: when its call ends a job for the key is queued
      if and only if its send found the queue open and with room. */
  lemma HeldKeyIsQueuedExactlyWhen(capacity: nat, trace: seq<Queue>, actions: seq<Action>, i: nat, j: nat, t: Tid)
    requires IsRun(capacity, trace, actions) && i < j < |trace| && Producing(PcOf(trace[i], t))
    requires !Producing(PcOf(trace[j], t))
    requires forall k :: i <= k < j ==> Producing(PcOf(trace[k], t))
    ensures Queued(trace[j], PcOf(trace[i], t).job.key) <==>
      exists k :: i <= k < j && SendsWithRoom(trace, actions, k, t)
  {
    hide Do;
    hide Enabled;
    hide Inv;
    hide Queued;
    hide HasRoom;
    hide PcOf;
    ProducerKeepsJob(capacity, trace, actions, i, j - 1, t);
    RunsKeepInv(capacity, trace, actions, j - 1);
    ProducerLeaves(trace[j - 1], actions[j - 1], t);
    assert trace[j] == Do(trace[j - 1], actions[j - 1]);
    assert SendsWithRoom(trace, actions, j - 1, t) <==> actions[j - 1] == TrySend(t);
    forall k | i <= k < j && SendsWithRoom(trace, actions, k, t) ensures k == j - 1 {
      SendEndsCall(capacity, trace, actions, k, t);
    }
  }

  lemma SendEndsCall(capacity: nat, trace: seq<Queue>, actions: seq<Action>, k: nat, t: Tid)
    requires IsRun(capacity, trace, actions) && SendsWithRoom(trace, actions, k, t)
    ensures k + 1 < |trace| && !Producing(PcOf(trace[k + 1], t))
  {
    SendWithRoomEnds(trace[k], t);
  }

  lemma SendWithRoomEnds(q: Queue, t: Tid)
    requires Enabled(q, TrySend(t)) && HasRoom(q)
    ensures !Producing(PcOf(Do(q, TrySend(t)), t))
  {
  }

  /** The other outcome does happen, from every state of every run that is full or closed: the second of
      two callers is deduplicated against the first, the first is refused and takes its key back, and no
      job for the key was ever accepted. */
  lemma DeduplicatedCanLeaveNothingQueued(capacity: nat, trace: seq<Queue>, actions: seq<Action>, t: Tid, u: Tid,
                                          job: Job, later: Job)
    returns (trace': seq<Queue>, actions': seq<Action>)
    requires IsRun(capacity, trace, actions)
    requires var q := trace[|actions|];
      && !HasRoom(q) && q.senderLock.None? && t != u && PcOf(q, t).Idle? && PcOf(q, u).Idle?
      && job.key == later.key && job.key !in q.pending
    ensures IsRun(capacity, trace', actions') && trace <= trace'
    ensures actions' == actions + [Insert(t, job), LockSender(t), TrySend(t), Insert(u, later), TakeBack(t)]
    ensures var n := |actions|;
      && later.key in trace'[n + 3].pending && trace'[n + 4] == trace'[n + 3]
      && later.key !in trace'[n + 5].pending && !Queued(trace'[n + 5], later.key)
      && trace'[n + 5].accepted == trace[n].accepted
  {
    var q := trace[|actions|];
    RunsKeepInv(capacity, trace, actions, |actions|);
    RefusedPair(q, t, u, job, later);
    hide Do;
    hide Enabled;
    hide Inv;
    hide Queued;
    hide HasRoom;
    hide PcOf;
    trace', actions' := Extend(capacity, trace, actions, Insert(t, job));
    trace', actions' := Extend(capacity, trace', actions', LockSender(t));
    trace', actions' := Extend(capacity, trace', actions', TrySend(t));
    trace', actions' := Extend(capacity, trace', actions', Insert(u, later));
    trace', actions' := Extend(capacity, trace', actions', TakeBack(t));
  }

  lemma RefusedPair(q: Queue, t: Tid, u: Tid, job: Job, later: Job)
    requires OneHolder(q) && !HasRoom(q) && q.senderLock.None? && t != u && PcOf(q, t).Idle? && PcOf(q, u).Idle?
    requires job.key == later.key && job.key !in q.pending
    ensures Enabled(q, Insert(t, job)) && var q1 := Do(q, Insert(t, job));
      Enabled(q1, LockSender(t)) && var q2 := Do(q1, LockSender(t));
      Enabled(q2, TrySend(t)) && var q3 := Do(q2, TrySend(t));
      && Enabled(q3, Insert(u, later)) && later.key in q3.pending && Do(q3, Insert(u, later)) == q3
      && Enabled(q3, TakeBack(t))
      && var q4 := Do(q3, TakeBack(t));
      later.key !in q4.pending && !Queued(q4, later.key) && q4.accepted == q.accepted
  {
    assert !Queued(q, job.key);
  }

  lemma Extend(capacity: nat, trace: seq<Queue>, actions: seq<Action>, a: Action)
    returns (trace': seq<Queue>, actions': seq<Action>)
    requires IsRun(capacity, trace, actions) && Enabled(trace[|actions|], a)
    ensures IsRun(capacity, trace', actions')
    ensures trace' == trace + [Do(trace[|actions|], a)] && actions' == actions + [a]
  {
    trace', actions' := trace + [Do(trace[|actions|], a)], actions + [a];
    forall i | 0 <= i < |actions'|
      ensures Enabled(trace'[i], actions'[i]) && trace'[i + 1] == Do(trace'[i], actions'[i])
    {
      if i < |actions| {
        assert actions'[i] == actions[i] && trace'[i] == trace[i] && trace'[i + 1] == trace[i + 1];
      }
    }
  }

  /** A run that ends closed, so the above applies to some run whatever the capacity. */
  lemma ClosedRun(capacity: nat) returns (trace: seq<Queue>, actions: seq<Action>)
    ensures IsRun(capacity, trace, actions) && !HasRoom(trace[|actions|])
    ensures trace[|actions|] == New(capacity).(open := false)
  {
    trace, actions := Extend(capacity, [New(capacity)], [], Close);
  }
}
