/** The batch completion tracker (`work_queue.rs` of cherry-pit-wq) as a machine of atomic accesses
    by any number of callers. The counter update and the notification that may follow it are separate
    steps; `notified()` captures the notification generation when it is created. */
module BatchTracker {
  import opened Prelude

  type Tid = nat

  datatype Pc = Idle | Notifying | Created(seen: nat) | Parked(seen: nat)

  /** The counter, the notification generation, the callers, and history variables: slots retired,
      completions past the end, and updates that took a positive count to zero. */
  datatype Tracker = Tracker(
    initial: U64,
    remaining: U64,
    generation: nat,
    callers: map<Tid, Pc>,
    retired: nat,
    overruns: nat,
    emptied: nat)

  datatype Action =
    | CompleteOne(t: Tid)
    | Retire(t: Tid, count: U64)
    | Notify(t: Tid)
    | BeginWait(t: Tid)
    | CheckWait(t: Tid)
    | Wake(t: Tid)
    | DropWait(t: Tid)

  function Drain(t: Tid): Action {
    Retire(t, U64_MAX)
  }

  function PcOf(b: Tracker, t: Tid): Pc {
    if t in b.callers then b.callers[t] else Idle
  }

  function Goto(b: Tracker, t: Tid, pc: Pc): Tracker {
    b.(callers := b.callers[t := pc])
  }

  predicate Enabled(b: Tracker, a: Action) {
    match a
    case CompleteOne(t) => PcOf(b, t).Idle?
    case Retire(t, _) => PcOf(b, t).Idle?
    case Notify(t) => PcOf(b, t).Notifying?
    case BeginWait(t) => PcOf(b, t).Idle?
    case CheckWait(t) => PcOf(b, t).Created?
    case Wake(t) => PcOf(b, t).Parked? && PcOf(b, t).seen < b.generation
    case DropWait(t) => PcOf(b, t).Created? || PcOf(b, t).Parked?
  }

  /** `fetch_sub` wraps before the assertion that reports the overrun. */
  function Do(b: Tracker, a: Action): Tracker
    requires Enabled(b, a)
  {
    match a
    case CompleteOne(t) =>
      if b.remaining == 0 then b.(remaining := U64_MAX, overruns := b.overruns + 1)
      else Take(b, t, 1)
    case Retire(t, count) => if count == 0 then b else Take(b, t, Min(b.remaining, count))
    case Notify(t) => Goto(b.(generation := b.generation + 1), t, Idle)
    case BeginWait(t) => Goto(b, t, Created(b.generation))
    case CheckWait(t) => Goto(b, t, if b.remaining == 0 then Idle else Parked(PcOf(b, t).seen))
    case Wake(t) => Goto(b, t, Idle)
    case DropWait(t) => Goto(b, t, Idle)
  }

  /** `n` slots go in one atomic step; whoever takes the last ones has to notify. */
  function Take(b: Tracker, t: Tid, n: nat): Tracker
    requires n <= b.remaining
  {
    var taken := b.(remaining := b.remaining - n, retired := b.retired + n);
    if 0 < n == b.remaining then Goto(taken.(emptied := b.emptied + 1), t, Notifying) else taken
  }

  function New(count: U64): Tracker {
    Tracker(count, count, 0, map[], 0, 0, 0)
  }

  ghost predicate IsRun(count: U64, trace: seq<Tracker>, actions: seq<Action>) {
    && |trace| == |actions| + 1 && trace[0] == New(count)
    && forall i :: 0 <= i < |actions| ==> Enabled(trace[i], actions[i]) && trace[i + 1] == Do(trace[i], actions[i])
  }

  // ---------------------------------------------------------------------
  // Conservation
  // ---------------------------------------------------------------------

  /** In every run nothing but an overrun changes the sum of remaining and retired slots. */
  lemma {:induction false} SlotsAreConserved(count: U64, trace: seq<Tracker>, actions: seq<Action>, n: nat)
    requires IsRun(count, trace, actions) && n < |trace|
    ensures trace[n].initial == count
    ensures trace[n].remaining + trace[n].retired == count + trace[n].overruns * U64_MAX
  {
    if n > 0 {
      SlotsAreConserved(count, trace, actions, n - 1);
      var b, b' := trace[n - 1], Do(trace[n - 1], actions[n - 1]);
      assert b'.overruns == b.overruns + 1 ==> b'.overruns * U64_MAX == b.overruns * U64_MAX + U64_MAX;
    }
  }

  /** The initial count is remaining plus retired exactly as long as no completion overran. */
  lemma CountHoldsExactlyWithinBudget(count: U64, trace: seq<Tracker>, actions: seq<Action>, n: nat)
    requires IsRun(count, trace, actions) && n < |trace|
    ensures trace[n].remaining + trace[n].retired == count <==> trace[n].overruns == 0
  {
    SlotsAreConserved(count, trace, actions, n);
  }

  /** An overrun happens exactly when `complete_one` meets an empty batch; it leaves the counter at its
      largest value, so a wait begun afterwards parks although every slot was retired. */
  lemma OverrunReopensTheBatch(b: Tracker, a: Action)
    requires Enabled(b, a)
    ensures Do(b, a).overruns != b.overruns <==> a.CompleteOne? && b.remaining == 0
    ensures Do(b, a).overruns != b.overruns ==> Do(b, a).remaining == U64_MAX
    ensures a.Retire? ==> Do(b, a).remaining == if b.remaining < a.count then 0 else b.remaining - a.count
    ensures a.Retire? && a == Drain(a.t) ==> Do(b, a).remaining == 0 && Do(b, a).retired == b.retired + b.remaining
  {
  }

  // ---------------------------------------------------------------------
  // Within the budget: one end, seen by every waiter
  // ---------------------------------------------------------------------

  ghost predicate MustNotify(b: Tracker, t: Tid) {
    PcOf(b, t).Notifying?
  }

  ghost predicate Inv(b: Tracker) {
    && b.emptied == (if b.remaining == 0 < b.initial then 1 else 0)
    && b.generation <= b.emptied
    && (b.generation < b.emptied <==> exists t :: MustNotify(b, t))
    && (forall t, u :: MustNotify(b, t) && MustNotify(b, u) ==> t == u)
    && (forall t :: PcOf(b, t).Created? ==> PcOf(b, t).seen <= b.generation)
    && (forall t :: PcOf(b, t).Parked? ==> 0 < b.initial && PcOf(b, t).seen == 0)
  }

  /** A caller that neither was nor becomes a notifier moves. */
  lemma MoveKeepsInv(b: Tracker, b': Tracker, t: Tid, pc: Pc)
    requires Inv(b) && !MustNotify(b, t) && !pc.Notifying? && b'.callers == b.callers[t := pc]
    requires b'.initial == b.initial && b'.remaining == b.remaining && b'.generation == b.generation
    requires b'.emptied == b.emptied
    requires pc.Created? ==> pc.seen <= b.generation
    requires pc.Parked? ==> 0 < b.initial && pc.seen == 0
    ensures Inv(b')
  {
    assert forall u :: PcOf(b', u) == if u == t then pc else PcOf(b, u);
    assert forall u :: MustNotify(b', u) <==> MustNotify(b, u);
  }

  lemma TakeKeepsInv(b: Tracker, t: Tid, n: nat)
    requires Inv(b) && PcOf(b, t).Idle? && n <= b.remaining <= b.initial
    ensures Inv(Take(b, t, n))
  {
    var b' := Take(b, t, n);
    if 0 < n == b.remaining {
      assert forall u :: !MustNotify(b, u);
      assert MustNotify(b', t);
      assert forall u :: PcOf(b', u) == if u == t then Notifying else PcOf(b, u);
      assert forall u :: MustNotify(b', u) ==> u == t || MustNotify(b, u);
    } else {
      assert forall u :: PcOf(b', u) == PcOf(b, u);
      assert forall u :: MustNotify(b', u) <==> MustNotify(b, u);
    }
  }

  lemma NotifyKeepsInv(b: Tracker, t: Tid)
    requires Inv(b) && MustNotify(b, t)
    ensures Inv(Do(b, Notify(t)))
  {
    var b' := Do(b, Notify(t));
    assert forall u :: u != t ==> PcOf(b', u) == PcOf(b, u);
    assert forall u :: MustNotify(b', u) ==> MustNotify(b, u) && u != t;
  }

  lemma ActionKeepsInv(b: Tracker, a: Action)
    requires Inv(b) && b.remaining <= b.initial && Enabled(b, a) && Do(b, a).overruns == b.overruns
    ensures Inv(Do(b, a))
  {
    match a
    case CompleteOne(t) => TakeKeepsInv(b, t, 1);
    case Retire(t, count) => TakeKeepsInv(b, t, Min(b.remaining, count));
    case Notify(t) => NotifyKeepsInv(b, t);
    case BeginWait(t) => MoveKeepsInv(b, Do(b, a), t, Created(b.generation));
    case CheckWait(t) => MoveKeepsInv(b, Do(b, a), t, PcOf(Do(b, a), t));
    case Wake(t) => MoveKeepsInv(b, Do(b, a), t, Idle);
    case DropWait(t) => MoveKeepsInv(b, Do(b, a), t, Idle);
  }

  lemma {:induction false} RunsKeepInv(count: U64, trace: seq<Tracker>, actions: seq<Action>, n: nat)
    requires IsRun(count, trace, actions) && n < |trace| && trace[n].overruns == 0
    ensures Inv(trace[n])
  {
    if n > 0 {
      OverrunReopensTheBatch(trace[n - 1], actions[n - 1]);
      RunsKeepInv(count, trace, actions, n - 1);
      SlotsAreConserved(count, trace, actions, n - 1);
      ActionKeepsInv(trace[n - 1], actions[n - 1]);
    }
  }

  /** In every run within the budget exactly one call takes the count from positive to zero, and it has
      happened exactly when the count is zero. */
  lemma TheEndIsSeenOnce(count: U64, trace: seq<Tracker>, actions: seq<Action>, n: nat)
    requires IsRun(count, trace, actions) && n < |trace| && trace[n].overruns == 0
    ensures trace[n].emptied <= 1
    ensures 0 < count ==> (trace[n].emptied == 1 <==> trace[n].remaining == 0)
    ensures count == 0 ==> trace[n].emptied == 0
  {
    SlotsAreConserved(count, trace, actions, n);
    RunsKeepInv(count, trace, actions, n);
  }

  /** No waiter that saw a positive count misses the end: while it is parked the batch is still open,
      or the caller that emptied it is about to notify, or the waiter can already wake. */
  lemma NoWaiterMissesTheEnd(count: U64, trace: seq<Tracker>, actions: seq<Action>, n: nat, t: Tid)
    requires IsRun(count, trace, actions) && n < |trace| && trace[n].overruns == 0
    requires PcOf(trace[n], t).Parked?
    ensures 0 < trace[n].remaining || (exists u :: MustNotify(trace[n], u)) || Enabled(trace[n], Wake(t))
    ensures forall u :: MustNotify(trace[n], u) ==> Enabled(Do(trace[n], Notify(u)), Wake(t))
  {
    SlotsAreConserved(count, trace, actions, n);
    RunsKeepInv(count, trace, actions, n);
  }
}
