/** The epoch budget gate as a machine of atomic accesses by any number of callers
    (`budget.rs` of cherry-pit-wq). Every load, compare-exchange, store and notification is one
    action; a caller keeps the snapshots it took, however stale. */
module BudgetGate {
  import opened Prelude

  type Tid = nat

  const TWO_64: nat := 0x1_0000_0000_0000_0000

  /** How an epoch transition ends: reopen and retry, return `false`, or unwind (panic or drop). */
  datatype Ending = Retry | GiveUp | Unwind

  datatype Pc =
    | Idle
    | Loop
    | HasLimit(limit: nat)
    | Charging(limit: nat, current: nat)
    | Electing(limit: nat)
    | Elected(limit: nat)
    | Pausing(limit: nat)
    | Sleeping(limit: nat)
    | Consulting(limit: nat)
    | Zeroing
    | Releasing(ending: Ending)
    | Notifying(ending: Ending)
    | Counting
    | Registering(limit: nat)
    | Registered(limit: nat, seen: nat)
    | Parked(limit: nat, seen: nat)
    | Refunding
    | RefundHas(current: nat)

  /** The atomics, the notification generation, the callers, and history variables: charges landed,
      charges already counted in `total_calls`, effective refunds, epoch resets, charges in this
      epoch, and the largest limit ever installed. */
  datatype Gate = Gate(
    limit: nat,
    calls: nat,
    totalCalls: nat,
    resetting: bool,
    hasPolicy: bool,
    generation: nat,
    callers: map<Tid, Pc>,
    grants: nat,
    counted: nat,
    refunds: nat,
    resets: nat,
    epochGrants: nat,
    maxLimit: nat)

  datatype Outcome = Slept | Ceiling(ceiling: NonZeroU64) | Cancelled | Unavailable | Panicked | Dropped

  datatype Action =
    | Begin(t: Tid)
    | LoadLimit(t: Tid)
    | LoadCalls(t: Tid)
    | Charge(t: Tid, spurious: bool)
    | Count(t: Tid)
    | Elect(t: Tid)
    | Recheck(t: Tid)
    | ReadPolicy(t: Tid)
    | EndWait(t: Tid, outcome: Outcome)
    | Zero(t: Tid)
    | Release(t: Tid)
    | Notify(t: Tid)
    | Register(t: Tid)
    | CheckRegistered(t: Tid)
    | Wake(t: Tid)
    | Abandon(t: Tid)
    | BeginRefund(t: Tid)
    | RefundLoad(t: Tid)
    | RefundTry(t: Tid, spurious: bool)
    | SetLimit(newLimit: NonZeroU64)
    | SetPolicy

  function PcOf(g: Gate, t: Tid): Pc {
    if t in g.callers then g.callers[t] else Idle
  }

  function Goto(g: Gate, t: Tid, pc: Pc): Gate {
    g.(callers := g.callers[t := pc])
  }

  predicate Enabled(g: Gate, a: Action) {
    match a
    case Begin(t) => PcOf(g, t).Idle?
    case LoadLimit(t) => PcOf(g, t).Loop?
    case LoadCalls(t) => PcOf(g, t).HasLimit?
    case Charge(t, _) => PcOf(g, t).Charging?
    case Count(t) => PcOf(g, t).Counting?
    case Elect(t) => PcOf(g, t).Electing?
    case Recheck(t) => PcOf(g, t).Elected?
    case ReadPolicy(t) => PcOf(g, t).Pausing?
    case EndWait(t, outcome) =>
      || (PcOf(g, t).Sleeping? && (outcome.Slept? || outcome.Cancelled? || outcome.Dropped?))
      || (PcOf(g, t).Consulting? && !outcome.Slept?)
    case Zero(t) => PcOf(g, t).Zeroing?
    case Release(t) => PcOf(g, t).Releasing?
    case Notify(t) => PcOf(g, t).Notifying?
    case Register(t) => PcOf(g, t).Registering?
    case CheckRegistered(t) => PcOf(g, t).Registered?
    case Wake(t) => PcOf(g, t).Parked? && PcOf(g, t).seen < g.generation
    case Abandon(t) => PcOf(g, t).Parked?
    case BeginRefund(t) => PcOf(g, t).Idle?
    case RefundLoad(t) => PcOf(g, t).Refunding?
    case RefundTry(t, _) => PcOf(g, t).RefundHas?
    case SetLimit(_) => true
    case SetPolicy => true
  }

  function ResetEpoch(g: Gate): Gate {
    g.(calls := 0, resets := g.resets + 1, epochGrants := 0)
  }

  function Do(g: Gate, a: Action): Gate
    requires Enabled(g, a)
  {
    match a
    case Begin(t) => Goto(g, t, Loop)
    case LoadLimit(t) => Goto(g, t, HasLimit(g.limit))
    case LoadCalls(t) =>
      var limit := PcOf(g, t).limit;
      Goto(g, t, if g.calls < limit then Charging(limit, g.calls) else Electing(limit))
    case Charge(t, spurious) =>
      if spurious || g.calls != PcOf(g, t).current then Goto(g, t, Loop)
      else Goto(g.(calls := g.calls + 1, grants := g.grants + 1, epochGrants := g.epochGrants + 1), t, Counting)
    case Count(t) => Goto(g.(totalCalls := (g.totalCalls + 1) % TWO_64, counted := g.counted + 1), t, Idle)
    case Elect(t) =>
      if g.resetting then Goto(g, t, Registering(PcOf(g, t).limit))
      else Goto(g.(resetting := true), t, Elected(PcOf(g, t).limit))
    case Recheck(t) =>
      var limit := PcOf(g, t).limit;
      Goto(g, t, if g.calls < limit then Releasing(Retry) else Pausing(limit))
    case ReadPolicy(t) =>
      Goto(g, t, if g.hasPolicy then Consulting(PcOf(g, t).limit) else Sleeping(PcOf(g, t).limit))
    case EndWait(t, outcome) =>
      (match outcome
       case Slept => Goto(ResetEpoch(g), t, Releasing(Retry))
       case Ceiling(c) => Goto(g.(limit := c, maxLimit := Max(g.maxLimit, c)), t, Zeroing)
       case Cancelled => Goto(g, t, Releasing(GiveUp))
       case Unavailable => Goto(g, t, Releasing(GiveUp))
       case Panicked => Goto(g, t, Releasing(Unwind))
       case Dropped => Goto(g, t, Releasing(Unwind)))
    case Zero(t) => Goto(ResetEpoch(g), t, Releasing(Retry))
    case Release(t) => Goto(g.(resetting := false), t, Notifying(PcOf(g, t).ending))
    case Notify(t) =>
      Goto(g.(generation := g.generation + 1), t, if PcOf(g, t).ending.Retry? then Loop else Idle)
    case Register(t) => Goto(g, t, Registered(PcOf(g, t).limit, g.generation))
    case CheckRegistered(t) =>
      var pc := PcOf(g, t);
      Goto(g, t, if g.calls < pc.limit then Loop else Parked(pc.limit, pc.seen))
    case Wake(t) => Goto(g, t, Loop)
    case Abandon(t) => Goto(g, t, Idle)
    case BeginRefund(t) => Goto(g, t, Refunding)
    case RefundLoad(t) => Goto(g, t, if g.calls == 0 then Idle else RefundHas(g.calls))
    case RefundTry(t, spurious) =>
      if spurious || g.calls != PcOf(g, t).current || g.calls == 0 then Goto(g, t, Refunding)
      else Goto(g.(calls := g.calls - 1, refunds := g.refunds + 1), t, Idle)
    case SetLimit(l) => g.(limit := l, maxLimit := Max(g.maxLimit, l))
    case SetPolicy => g.(hasPolicy := true)
  }

  function New(limit: NonZeroU64): Gate {
    Gate(limit, 0, 0, false, false, 0, map[], 0, 0, 0, 0, 0, limit)
  }

  ghost predicate IsRun(limit: NonZeroU64, trace: seq<Gate>, actions: seq<Action>) {
    && |trace| == |actions| + 1
    && trace[0] == New(limit)
    && forall i :: 0 <= i < |actions| ==> Enabled(trace[i], actions[i]) && trace[i + 1] == Do(trace[i], actions[i])
  }

  // ---------------------------------------------------------------------
  // Any run: one elected caller, bounded calls
  // ---------------------------------------------------------------------

  /** Inside the epoch transition, that is, owning the reset guard. */
  predicate Holding(pc: Pc) {
    pc.Elected? || pc.Pausing? || pc.Sleeping? || pc.Consulting? || pc.Zeroing? || pc.Releasing?
  }

  ghost predicate Holds(g: Gate, t: Tid) {
    Holding(PcOf(g, t))
  }

  /** `resetting` is set exactly while one caller is inside the transition. */
  ghost predicate OneElected(g: Gate) {
    && (g.resetting <==> exists t :: Holds(g, t))
    && (forall t, u :: Holds(g, t) && Holds(g, u) ==> t == u)
  }

  /** Snapshots are of limits that were installed and of generations already passed. */
  predicate PcBounded(g: Gate, pc: Pc) {
    match pc
    case HasLimit(l) => l <= g.maxLimit
    case Charging(l, current) => current < l <= g.maxLimit
    case Electing(l) => l <= g.maxLimit
    case Elected(l) => l <= g.maxLimit
    case Registering(l) => l <= g.maxLimit
    case Registered(l, seen) => seen <= g.generation
    case Parked(l, seen) => seen <= g.generation
    case _ => true
  }

  ghost predicate Inv(g: Gate) {
    && OneElected(g)
    && 0 < g.limit <= g.maxLimit <= U64_MAX
    && g.calls <= g.maxLimit
    && g.calls + g.refunds <= g.grants
    && forall t :: PcBounded(g, PcOf(g, t))
  }

  /** A move that does not touch the guard keeps the election. */
  lemma MoveKeepsElection(g: Gate, g': Gate, t: Tid, pc: Pc)
    requires OneElected(g) && g'.callers == g.callers[t := pc]
    requires Holding(pc) == Holds(g, t) && g'.resetting == g.resetting
    ensures OneElected(g')
  {
    assert forall u :: Holds(g', u) == Holds(g, u);
  }

  lemma ElectKeepsElection(g: Gate, g': Gate, t: Tid, pc: Pc)
    requires OneElected(g) && !g.resetting && g'.callers == g.callers[t := pc] && Holding(pc) && g'.resetting
    ensures OneElected(g')
  {
    assert Holds(g', t);
    assert forall u :: u != t ==> Holds(g', u) == Holds(g, u);
  }

  lemma ReleaseKeepsElection(g: Gate, g': Gate, t: Tid, pc: Pc)
    requires OneElected(g) && Holds(g, t) && g'.callers == g.callers[t := pc] && !Holding(pc) && !g'.resetting
    ensures OneElected(g')
  {
    assert !Holds(g', t);
    assert forall u :: u != t ==> Holds(g', u) == Holds(g, u);
  }

  lemma ActionKeepsElection(g: Gate, a: Action)
    requires OneElected(g) && Enabled(g, a)
    ensures OneElected(Do(g, a))
  {
    var g' := Do(g, a);
    if a.SetLimit? || a.SetPolicy? {
      assert forall u :: Holds(g', u) == Holds(g, u);
    } else if a.Elect? && !g.resetting {
      ElectKeepsElection(g, g', a.t, PcOf(g', a.t));
    } else if a.Release? {
      ReleaseKeepsElection(g, g', a.t, PcOf(g', a.t));
    } else {
      assert a.Elect? ==> !Holds(g, a.t);
      MoveKeepsElection(g, g', a.t, PcOf(g', a.t));
    }
  }

  /** Snapshots stay bounded when one caller moves to a bounded position and the bounds only grow. */
  lemma MoveKeepsBounds(g: Gate, g': Gate, t: Tid, pc: Pc)
    requires forall u :: PcBounded(g, PcOf(g, u))
    requires g'.callers == g.callers[t := pc] && PcBounded(g', pc)
    requires g.maxLimit <= g'.maxLimit && g.generation <= g'.generation
    ensures forall u :: PcBounded(g', PcOf(g', u))
  {
    forall u ensures PcBounded(g', PcOf(g', u)) {
      assert PcBounded(g, PcOf(g, u));
    }
  }

  lemma ActionKeepsBounds(g: Gate, a: Action)
    requires Inv(g) && Enabled(g, a)
    ensures forall u :: PcBounded(Do(g, a), PcOf(Do(g, a), u))
  {
    var g' := Do(g, a);
    if a.SetLimit? || a.SetPolicy? {
      MoveKeepsBounds(g, g'.(callers := g.callers[0 := PcOf(g, 0)]), 0, PcOf(g, 0));
      assert forall u :: PcOf(g'.(callers := g.callers[0 := PcOf(g, 0)]), u) == PcOf(g', u);
    } else {
      assert PcBounded(g, PcOf(g, a.t));
      MoveKeepsBounds(g, g', a.t, PcOf(g', a.t));
    }
  }

  lemma ActionKeepsInv(g: Gate, a: Action)
    requires Inv(g) && Enabled(g, a)
    ensures Inv(Do(g, a))
  {
    ActionKeepsElection(g, a);
    ActionKeepsBounds(g, a);
    assert a.SetLimit? || a.SetPolicy? || PcBounded(g, PcOf(g, a.t));
    hide OneElected;
    hide PcBounded;
    if a.Charge? {
      ChargeBelowLimit(g, a);
    }
  }

  lemma ChargeBelowLimit(g: Gate, a: Action)
    requires Enabled(g, a) && a.Charge? && PcBounded(g, PcOf(g, a.t)) && g.calls <= g.maxLimit
    ensures Do(g, a).calls <= g.maxLimit
  {
  }

  lemma {:induction false} RunsKeepInv(limit: NonZeroU64, trace: seq<Gate>, actions: seq<Action>, n: nat)
    requires IsRun(limit, trace, actions) && n < |trace|
    ensures Inv(trace[n])
  {
    if n > 0 {
      RunsKeepInv(limit, trace, actions, n - 1);
      ActionKeepsInv(trace[n - 1], actions[n - 1]);
    }
  }

  /** In every run, with policies and live resizing: `resetting` holds exactly while one caller is
      inside the transition, and `calls` never exceeds the largest limit ever installed. */
  lemma CallsNeverExceedLargestLimit(limit: NonZeroU64, trace: seq<Gate>, actions: seq<Action>, n: nat)
    requires IsRun(limit, trace, actions) && n < |trace|
    ensures OneElected(trace[n])
    ensures trace[n].calls <= trace[n].maxLimit
  {
    RunsKeepInv(limit, trace, actions, n);
  }

  /** Only the elected caller zeroes `calls` or installs a policy ceiling; everyone else moves
      `calls` by one charge or one refund and leaves the limit to `set_epoch_limit`. */
  lemma OnlyElectedMovesTheEpoch(g: Gate, a: Action)
    requires Inv(g) && Enabled(g, a)
    ensures Do(g, a).limit != g.limit ==> a.SetLimit? || (a.EndWait? && Holds(g, a.t))
    ensures Do(g, a).resets != g.resets ==> (a.EndWait? || a.Zero?) && Holds(g, a.t) && Do(g, a).calls == 0
    ensures Do(g, a).resets == g.resets ==> g.calls - 1 <= Do(g, a).calls <= g.calls + 1
    ensures Do(g, a).calls == g.calls + 1 ==> a.Charge? && g.calls < g.maxLimit
  {
  }

  /** A cancelled, unavailable, panicking or dropped transition leaves calls and limit alone, all the
      way through releasing the guard and waking the waiters. */
  lemma FailedTransitionChangesNothing(g: Gate, t: Tid, outcome: Outcome)
    requires Inv(g) && Enabled(g, EndWait(t, outcome)) && !outcome.Slept? && !outcome.Ceiling?
    ensures var g1 := Do(g, EndWait(t, outcome));
      && Enabled(g1, Release(t))
      && var g2 := Do(g1, Release(t));
      && Enabled(g2, Notify(t))
      && var g3 := Do(g2, Notify(t));
      && g3.calls == g2.calls == g1.calls == g.calls
      && g3.limit == g2.limit == g1.limit == g.limit
      && g3.resets == g.resets && !g2.resetting
      && PcOf(g3, t) == Idle
  {
  }

  // ---------------------------------------------------------------------
  // Which waiters are woken
  // ---------------------------------------------------------------------

  ghost predicate MustNotify(g: Gate, u: Tid) {
    Holds(g, u) || PcOf(g, u).Notifying?
  }

  /** A notification later than `seen` has happened or is owed by a caller inside the transition. */
  ghost predicate WillBeWoken(g: Gate, seen: nat) {
    seen < g.generation || exists u :: MustNotify(g, u)
  }

  /** What is owed stays owed until it is paid, and a new debt arises only by winning an election. */
  lemma ActionKeepsWoken(g: Gate, a: Action, seen: nat)
    requires Enabled(g, a) && seen <= g.generation
    ensures WillBeWoken(Do(g, a), seen) <==> WillBeWoken(g, seen) || (a.Elect? && !g.resetting)
    ensures g.generation <= Do(g, a).generation
  {
    var g' := Do(g, a);
    if a.Notify? {
      assert MustNotify(g, a.t);
    } else if a.Elect? && !g.resetting {
      assert MustNotify(g', a.t);
    } else {
      assert g'.generation == g.generation;
      if !a.SetLimit? && !a.SetPolicy? {
        assert MustNotify(g', a.t) <==> MustNotify(g, a.t);
        assert forall u :: u != a.t ==> PcOf(g', u) == PcOf(g, u);
      }
      SameDebts(g, g');
    }
  }

  lemma SameDebts(g: Gate, g': Gate)
    requires forall u :: MustNotify(g', u) <==> MustNotify(g, u)
    ensures (exists u :: MustNotify(g', u)) <==> exists u :: MustNotify(g, u)
  {
  }

  /** Over every run: a registered or parked caller is woken, or will be by a caller already inside the
      transition, exactly when that was so at an earlier state or an election was won since. */
  lemma {:induction false} WaitersAreWokenExactlyWhen(limit: NonZeroU64, trace: seq<Gate>, actions: seq<Action>,
                                                      i: nat, j: nat, t: Tid)
    requires IsRun(limit, trace, actions) && i <= j < |trace|
    requires (PcOf(trace[i], t).Registered? || PcOf(trace[i], t).Parked?)
    ensures var seen := PcOf(trace[i], t).seen;
      && seen <= trace[i].generation <= trace[j].generation
      && (WillBeWoken(trace[j], seen) <==>
            WillBeWoken(trace[i], seen) || exists k :: i <= k < j && WonElection(trace, actions, k))
    decreases j
  {
    RunsKeepInv(limit, trace, actions, i);
    assert PcBounded(trace[i], PcOf(trace[i], t));
    if i < j {
      WaitersAreWokenExactlyWhen(limit, trace, actions, i, j - 1, t);
      ActionKeepsWoken(trace[j - 1], actions[j - 1], PcOf(trace[i], t).seen);
      assert WonElection(trace, actions, j - 1) <==> actions[j - 1].Elect? && !trace[j - 1].resetting;
      hide WillBeWoken;
      hide Do;
    }
  }

  ghost predicate WonElection(trace: seq<Gate>, actions: seq<Action>, k: nat) {
    k < |actions| && k < |trace| && actions[k].Elect? && !trace[k].resetting
  }

  /** A notification releases every caller that registered before it, parked or about to park. */
  lemma NotifyWakesRegistered(g: Gate, t: Tid, u: Tid)
    requires Inv(g) && Enabled(g, Notify(t)) && (PcOf(g, u).Registered? || PcOf(g, u).Parked?)
    ensures PcOf(Do(g, Notify(t)), u) == PcOf(g, u) && PcOf(g, u).seen < Do(g, Notify(t)).generation
    ensures PcOf(g, u).Parked? ==> Enabled(Do(g, Notify(t)), Wake(u))
  {
  }

  predicate By(a: Action, t: Tid) {
    !a.SetLimit? && !a.SetPolicy? && a.t == t
  }

  /** Steps of callers other than `t`, none of which wins an election. */
  ghost predicate Leads(g: Gate, actions: seq<Action>, t: Tid, g': Gate)
    decreases |actions|
  {
    if actions == [] then g' == g
    else
      && Enabled(g, actions[0]) && !By(actions[0], t) && !(actions[0].Elect? && !g.resetting)
      && Leads(Do(g, actions[0]), actions[1..], t, g')
  }

  /** The waiter can be woken by what is under way, without anyone winning a new election. */
  ghost predicate CanBeWoken(g: Gate, t: Tid) {
    exists actions, g' :: Leads(g, actions, t, g') && Enabled(g', Wake(t))
  }

  /** How far a caller inside the transition is from its notification. */
  function StepsLeft(pc: Pc): nat {
    match pc
    case Elected(_) => 5
    case Pausing(_) => 4
    case Sleeping(_) => 3
    case Consulting(_) => 3
    case Zeroing => 3
    case Releasing(_) => 2
    case _ => 1
  }

  function NextStep(t: Tid, pc: Pc): Action {
    match pc
    case Elected(_) => Recheck(t)
    case Pausing(_) => ReadPolicy(t)
    case Sleeping(_) => EndWait(t, Dropped)
    case Consulting(_) => EndWait(t, Dropped)
    case Zeroing => Zero(t)
    case Releasing(_) => Release(t)
    case _ => Notify(t)
  }

  /** The debt is one its debtor can pay alone: at most five steps of that caller wake the waiter. */
  lemma {:induction false} DebtorCanWake(g: Gate, u: Tid, t: Tid) returns (actions: seq<Action>, g': Gate)
    requires Inv(g) && MustNotify(g, u) && PcOf(g, t).Parked?
    ensures Leads(g, actions, t, g') && |actions| <= StepsLeft(PcOf(g, u)) <= 5 && Enabled(g', Wake(t))
    decreases StepsLeft(PcOf(g, u))
  {
    var a := NextStep(u, PcOf(g, u));
    assert Enabled(g, a) && PcBounded(g, PcOf(g, t));
    var next := Do(g, a);
    ActionKeepsInv(g, a);
    assert PcOf(next, t) == PcOf(g, t);
    if a.Notify? {
      assert Leads(next, [], t, next);
      assert [a][1..] == [];
      actions, g' := [a], next;
    } else {
      var rest;
      rest, g' := DebtorCanWake(next, u, t);
      assert ([a] + rest)[1..] == rest;
      actions := [a] + rest;
    }
  }

  lemma {:induction false} LeadsFindsDebt(g: Gate, actions: seq<Action>, t: Tid, g': Gate, seen: nat)
    requires Leads(g, actions, t, g') && seen <= g.generation && WillBeWoken(g', seen)
    ensures WillBeWoken(g, seen)
    decreases |actions|
  {
    if actions != [] {
      ActionKeepsWoken(g, actions[0], seen);
      LeadsFindsDebt(Do(g, actions[0]), actions[1..], t, g', seen);
    }
  }

  lemma StepKeepsOthers(g: Gate, a: Action, t: Tid)
    requires Enabled(g, a) && !By(a, t)
    ensures PcOf(Do(g, a), t) == PcOf(g, t)
  {
  }

  lemma {:induction false} LeadsKeepsWaiter(g: Gate, actions: seq<Action>, t: Tid, g': Gate)
    requires Leads(g, actions, t, g')
    ensures PcOf(g', t) == PcOf(g, t)
    decreases |actions|
  {
    if actions != [] {
      StepKeepsOthers(g, actions[0], t);
      hide Do;
      LeadsKeepsWaiter(Do(g, actions[0]), actions[1..], t, g');
    }
  }

  /** A parked caller can still be woken, without anyone winning a new election, exactly when a
      notification after its registration has happened or is owed by a caller inside the transition. */
  lemma ParkedWakesExactlyWhen(g: Gate, t: Tid)
    requires Inv(g) && PcOf(g, t).Parked?
    ensures CanBeWoken(g, t) <==> PcOf(g, t).seen < g.generation || exists u :: MustNotify(g, u)
  {
    var seen := PcOf(g, t).seen;
    assert PcBounded(g, PcOf(g, t));
    if actions, g' :| Leads(g, actions, t, g') && Enabled(g', Wake(t)) {
      LeadsKeepsWaiter(g, actions, t, g');
      assert WillBeWoken(g', seen);
      LeadsFindsDebt(g, actions, t, g', seen);
    }
    if seen < g.generation {
      assert Leads(g, [], t, g) && Enabled(g, Wake(t));
    } else if u :| MustNotify(g, u) {
      var actions, g' := DebtorCanWake(g, u, t);
    }
  }

  /** Parking is safe exactly when that is so at the check before it, in every state of every run. */
  lemma ParkingIsSafeExactlyWhen(limit: NonZeroU64, trace: seq<Gate>, actions: seq<Action>, n: nat, t: Tid)
    requires IsRun(limit, trace, actions) && n < |actions| && actions[n] == CheckRegistered(t)
    requires PcOf(trace[n + 1], t).Parked?
    ensures PcOf(trace[n], t).Registered?
    ensures CanBeWoken(trace[n + 1], t) <==>
      PcOf(trace[n], t).seen < trace[n].generation || exists u :: MustNotify(trace[n], u)
  {
    var g, g' := trace[n], trace[n + 1];
    RunsKeepInv(limit, trace, actions, n);
    RunsKeepInv(limit, trace, actions, n + 1);
    assert PcBounded(g, PcOf(g, t));
    ActionKeepsWoken(g, CheckRegistered(t), PcOf(g, t).seen);
    ParkedWakesExactlyWhen(g', t);
  }

  // ---------------------------------------------------------------------
  // Counting: every grant is counted, modulo the counter width
  // ---------------------------------------------------------------------

  /** Callers whose charge landed but is not in `total_calls` yet. */
  function InFlight(g: Gate): set<Tid> {
    set t | t in g.callers && g.callers[t].Counting?
  }

  ghost predicate Tallied(g: Gate) {
    g.grants == g.counted + |InFlight(g)|
  }

  lemma MoveInFlight(g: Gate, g': Gate, t: Tid)
    requires g'.callers == g.callers[t := PcOf(g', t)]
    ensures InFlight(g') == if PcOf(g', t).Counting? then InFlight(g) + {t} else InFlight(g) - {t}
    ensures |InFlight(g')| ==
      |InFlight(g)| + (if PcOf(g', t).Counting? then 1 else 0) - (if PcOf(g, t).Counting? then 1 else 0)
  {
  }

  /** A charge landing and a charge being counted are what moves a caller in and out of flight. */
  lemma ActionTally(g: Gate, a: Action)
    requires Enabled(g, a) && !a.SetLimit? && !a.SetPolicy?
    ensures Do(g, a).callers == g.callers[a.t := PcOf(Do(g, a), a.t)]
    ensures (Do(g, a).grants - Do(g, a).counted) - (g.grants - g.counted)
         == (if PcOf(Do(g, a), a.t).Counting? then 1 else 0) - (if PcOf(g, a.t).Counting? then 1 else 0)
  {
  }

  lemma ActionKeepsTally(g: Gate, a: Action)
    requires Tallied(g) && Enabled(g, a)
    ensures Tallied(Do(g, a))
  {
    if a.SetLimit? || a.SetPolicy? {
      assert InFlight(Do(g, a)) == InFlight(g);
    } else {
      ActionTally(g, a);
      MoveInFlight(g, Do(g, a), a.t);
      hide InFlight;
      hide Do;
      hide PcOf;
    }
  }

  /** Only `Count` touches the cumulative counter, and it wraps at the counter's width. */
  lemma ActionKeepsWrap(g: Gate, a: Action)
    requires Enabled(g, a) && g.totalCalls == g.counted % TWO_64
    ensures Do(g, a).totalCalls == Do(g, a).counted % TWO_64
  {
  }

  /** `total_calls` is the number of granted charges less those in flight, modulo 2^64. */
  lemma {:induction false} TotalCallsTallies(limit: NonZeroU64, trace: seq<Gate>, actions: seq<Action>, n: nat)
    requires IsRun(limit, trace, actions) && n < |trace|
    ensures trace[n].totalCalls == trace[n].counted % TWO_64
    ensures trace[n].counted == trace[n].grants - |InFlight(trace[n])|
  {
    if n == 0 {
      assert InFlight(trace[0]) == {};
    } else {
      TotalCallsTallies(limit, trace, actions, n - 1);
      ActionKeepsTally(trace[n - 1], actions[n - 1]);
      ActionKeepsWrap(trace[n - 1], actions[n - 1]);
    }
  }

  // ---------------------------------------------------------------------
  // Fixed limit, no policy: how many grants an epoch admits
  // ---------------------------------------------------------------------

  ghost predicate Fixed(actions: seq<Action>) {
    forall i :: 0 <= i < |actions| ==> !actions[i].SetLimit? && !actions[i].SetPolicy?
  }

  predicate PcFixed(g: Gate, pc: Pc) {
    match pc
    case HasLimit(l) => l == g.limit
    case Charging(l, _) => l == g.limit
    case Electing(l) => l == g.limit
    case Elected(l) => l == g.limit
    case Pausing(l) => l == g.limit && g.limit <= g.epochGrants
    case Sleeping(l) => l == g.limit && g.limit <= g.epochGrants
    case Consulting(_) => false
    case Zeroing => false
    case _ => true
  }

  ghost predicate FixedInv(g: Gate) {
    && Inv(g) && !g.hasPolicy && g.maxLimit == g.limit
    && g.calls <= g.epochGrants
    && g.resets * g.limit + g.epochGrants <= g.grants
    && g.grants - g.refunds <= g.resets * g.limit + g.calls
    && forall t :: PcFixed(g, PcOf(g, t))
  }

  /** The counters of a fixed-limit epoch, for a caller at a justified position. */
  lemma ActionKeepsFixedCounts(g: Gate, a: Action)
    requires FixedInv(g) && Enabled(g, a) && !a.SetLimit? && !a.SetPolicy?
    ensures var g' := Do(g, a);
      && g'.limit == g'.maxLimit == g.limit && g'.hasPolicy == g.hasPolicy
      && g'.calls <= g'.epochGrants
      && g'.resets * g'.limit + g'.epochGrants <= g'.grants
      && g'.grants - g'.refunds <= g'.resets * g'.limit + g'.calls
      && (g'.resets == g.resets ==> g.epochGrants <= g'.epochGrants)
  {
    assert PcFixed(g, PcOf(g, a.t)) && PcBounded(g, PcOf(g, a.t));
    hide OneElected;
    if Do(g, a).resets != g.resets {
      assert (g.resets + 1) * g.limit == g.resets * g.limit + g.limit;
    }
  }

  lemma ActionKeepsFixed(g: Gate, a: Action)
    requires FixedInv(g) && Enabled(g, a) && !a.SetLimit? && !a.SetPolicy?
    ensures FixedInv(Do(g, a)) && Do(g, a).limit == g.limit
  {
    ActionKeepsInv(g, a);
    ActionKeepsFixedCounts(g, a);
    ActionTally(g, a);
    OnlyElectedMovesTheEpoch(g, a);
    var g' := Do(g, a);
    assert PcFixed(g, PcOf(g, a.t)) && PcBounded(g, PcOf(g, a.t));
    assert PcFixed(g', PcOf(g', a.t));
    forall t ensures PcFixed(g', PcOf(g', t)) {
      hide Do;
      assert PcFixed(g, PcOf(g, t));
      assert Holds(g, t) && Holds(g, a.t) ==> t == a.t;
    }
  }

  lemma {:induction false} FixedRunsKeepInv(limit: NonZeroU64, trace: seq<Gate>, actions: seq<Action>, n: nat)
    requires IsRun(limit, trace, actions) && Fixed(actions) && n < |trace|
    ensures FixedInv(trace[n]) && trace[n].limit == limit
  {
    if n > 0 {
      FixedRunsKeepInv(limit, trace, actions, n - 1);
      ActionKeepsFixed(trace[n - 1], actions[n - 1]);
    }
  }

  /** With a fixed limit and no policy, in every interleaving: the epoch counter never exceeds the
      limit, no epoch is reset before a full limit of charges landed in it, and the charges that
      were not refunded fit in the epochs opened so far. */
  lemma FixedLimitBounds(limit: NonZeroU64, trace: seq<Gate>, actions: seq<Action>, n: nat)
    requires IsRun(limit, trace, actions) && Fixed(actions) && n < |trace|
    ensures trace[n].calls <= limit
    ensures trace[n].resets * limit <= trace[n].grants
    ensures trace[n].grants - trace[n].refunds <= (trace[n].resets + 1) * limit
  {
    FixedRunsKeepInv(limit, trace, actions, n);
    assert (trace[n].resets + 1) * limit == trace[n].resets * limit + limit;
  }

  // ---------------------------------------------------------------------
  // When the counter stays within the current limit, and when waiters strand
  // ---------------------------------------------------------------------

  /** No install lowers the limit then in force. */
  ghost predicate NeverLowers(trace: seq<Gate>, actions: seq<Action>)
    requires |trace| == |actions| + 1
  {
    forall i :: 0 <= i < |actions| ==> trace[i].limit <= trace[i + 1].limit
  }

  /** Without lowering, `calls` never exceeds the limit in force. */
  lemma {:induction false} RaisingKeepsBound(limit: NonZeroU64, trace: seq<Gate>, actions: seq<Action>, n: nat)
    requires IsRun(limit, trace, actions) && NeverLowers(trace, actions) && n < |trace|
    ensures trace[n].calls <= trace[n].limit == trace[n].maxLimit
  {
    RunsKeepInv(limit, trace, actions, n);
    if n > 0 {
      RaisingKeepsBound(limit, trace, actions, n - 1);
      assert trace[n] == Do(trace[n - 1], actions[n - 1]);
    }
  }

  ghost predicate Reachable(limit: NonZeroU64, g: Gate) {
    exists trace, actions :: IsRun(limit, trace, actions) && trace[|trace| - 1] == g
  }

  lemma ReachNew(limit: NonZeroU64)
    ensures Reachable(limit, New(limit))
  {
    assert IsRun(limit, [New(limit)], []);
  }

  lemma Advance(limit: NonZeroU64, g: Gate, a: Action) returns (g': Gate)
    requires Reachable(limit, g) && Enabled(g, a)
    ensures g' == Do(g, a) && Reachable(limit, g')
  {
    var trace, actions :| IsRun(limit, trace, actions) && trace[|trace| - 1] == g;
    g' := Do(g, a);
    var trace', actions' := trace + [g'], actions + [a];
    forall i | 0 <= i < |actions'|
      ensures Enabled(trace'[i], actions'[i]) && trace'[i + 1] == Do(trace'[i], actions'[i])
    {
      if i < |actions| {
        assert actions'[i] == actions[i] && trace'[i] == trace[i] && trace'[i + 1] == trace[i + 1];
      }
    }
    assert IsRun(limit, trace', actions');
  }

  lemma AcquireOnce(limit: NonZeroU64, g: Gate, t: Tid) returns (g': Gate)
    requires Reachable(limit, g) && PcOf(g, t).Idle? && g.calls < g.limit
    ensures Reachable(limit, g') && g'.calls == g.calls + 1 && g'.limit == g.limit
    ensures g'.resetting == g.resetting && g'.hasPolicy == g.hasPolicy
    ensures PcOf(g', t).Idle? && forall u :: u != t ==> PcOf(g', u) == PcOf(g, u)
  {
    hide Reachable;
    var g1 := Advance(limit, g, Begin(t));
    var g2 := Advance(limit, g1, LoadLimit(t));
    var g3 := Advance(limit, g2, LoadCalls(t));
    var g4 := Advance(limit, g3, Charge(t, false));
    g' := Advance(limit, g4, Count(t));
  }

  /** Which single action takes `calls` above the limit in force: installing less than `calls`, or a
      charge that lands on a stale snapshot of the limit. */
  predicate Breaks(g: Gate, a: Action) {
    match a
    case SetLimit(l) => l < g.calls
    case EndWait(_, Ceiling(c)) => c < g.calls
    case Charge(t, spurious) => !spurious && PcOf(g, t).Charging? && g.calls == PcOf(g, t).current && g.calls == g.limit
    case _ => false
  }

  lemma BreaksExactlyWhen(g: Gate, a: Action)
    requires Inv(g) && Enabled(g, a) && g.calls <= g.limit
    ensures Do(g, a).calls <= Do(g, a).limit <==> !Breaks(g, a)
  {
  }

  /** With live resizing and policies: `calls` stays within the limit in force at every state of a run
      if and only if no install goes below `calls` and no charge lands on a stale limit. */
  lemma CallsStayWithinLimitExactlyWhen(limit: NonZeroU64, trace: seq<Gate>, actions: seq<Action>)
    requires IsRun(limit, trace, actions)
    ensures (forall n :: 0 <= n < |trace| ==> WithinLimit(trace, n)) <==>
      forall i :: 0 <= i < |actions| ==> !Breaks(trace[i], actions[i])
  {
    if forall n :: 0 <= n < |trace| ==> WithinLimit(trace, n) {
      forall i | 0 <= i < |actions| ensures !Breaks(trace[i], actions[i]) {
        RunsKeepInv(limit, trace, actions, i);
        assert WithinLimit(trace, i) && WithinLimit(trace, i + 1);
        BreaksExactlyWhen(trace[i], actions[i]);
      }
    }
    if forall i :: 0 <= i < |actions| ==> !Breaks(trace[i], actions[i]) {
      forall n | 0 <= n < |trace| ensures WithinLimit(trace, n) {
        UnbrokenStaysWithin(limit, trace, actions, n);
      }
    }
  }

  ghost predicate WithinLimit(trace: seq<Gate>, n: nat) {
    n < |trace| && trace[n].calls <= trace[n].limit
  }

  lemma {:induction false} UnbrokenStaysWithin(limit: NonZeroU64, trace: seq<Gate>, actions: seq<Action>, n: nat)
    requires IsRun(limit, trace, actions) && n < |trace|
    requires forall i :: 0 <= i < |actions| ==> !Breaks(trace[i], actions[i])
    ensures WithinLimit(trace, n)
  {
    if n > 0 {
      UnbrokenStaysWithin(limit, trace, actions, n - 1);
      RunsKeepInv(limit, trace, actions, n - 1);
      BreaksExactlyWhen(trace[n - 1], actions[n - 1]);
    }
  }

  /** From any reachable state a newcomer can spend what is left of the limit in force. */
  lemma {:induction false} SpendAll(limit: NonZeroU64, g: Gate, t: Tid) returns (g': Gate)
    requires Reachable(limit, g) && PcOf(g, t).Idle?
    ensures Reachable(limit, g') && g'.limit == g.limit <= g'.calls && PcOf(g', t).Idle?
    ensures g'.resetting == g.resetting && g'.hasPolicy == g.hasPolicy
    decreases g.limit - g.calls
  {
    if g.limit <= g.calls {
      g' := g;
    } else {
      g' := AcquireOnce(limit, g, t);
      g' := SpendAll(limit, g', t);
    }
  }

  lemma Newcomer(g: Gate) returns (t: Tid)
    ensures PcOf(g, t).Idle?
  {
    t := Above(g.callers.Keys);
  }

  lemma {:induction false} Above(s: set<Tid>) returns (t: Tid)
    ensures forall u :: u in s ==> u < t
    decreases s
  {
    if s == {} {
      t := 0;
    } else {
      var u :| u in s;
      t := Above(s - {u});
      t := if t <= u then u + 1 else t;
      assert forall w :: w in s ==> w == u || w in s - {u};
    }
  }

  /** From any reachable state, any live lowering can leave `calls` above the limit in force. */
  lemma LoweringBreaksBound(limit: NonZeroU64, g: Gate, lower: NonZeroU64) returns (g': Gate)
    requires Reachable(limit, g) && lower < g.limit
    ensures Reachable(limit, g') && g'.limit == lower < g.limit <= g'.calls
  {
    var t := Newcomer(g);
    g' := SpendAll(limit, g, t);
    g' := Advance(limit, g', SetLimit(lower));
  }

  /** And so can any lower policy ceiling, between its two stores. */
  lemma PolicyLoweringBreaksBound(limit: NonZeroU64, g: Gate, lower: NonZeroU64) returns (g': Gate)
    requires Reachable(limit, g) && lower < g.limit && g.hasPolicy && !g.resetting
    ensures Reachable(limit, g') && g'.limit == lower < g.limit <= g'.calls
  {
    var t := Newcomer(g);
    g' := SpendAll(limit, g, t);
    hide Reachable;
    g' := Advance(limit, g', Begin(t));
    g' := Advance(limit, g', LoadLimit(t));
    g' := Advance(limit, g', LoadCalls(t));
    g' := Advance(limit, g', Elect(t));
    g' := Advance(limit, g', Recheck(t));
    g' := Advance(limit, g', ReadPolicy(t));
    g' := Advance(limit, g', EndWait(t, Ceiling(lower)));
  }

  /** A caller that registers after the notification parks with nobody left to wake it: the next
      wake-up needs a new caller to arrive and be elected. */
  lemma LateWaiterCanStrand()
    ensures exists g :: Reachable(1, g) && Stranded(g, 1)
  {
    hide Reachable;
    ReachNew(1);
    var g0 := AcquireOnce(1, New(1), 0);
    var g1 := LoseElection(g0);
    var g2 := CancelElected(g1);
    var g3 := Advance(1, g2, Register(1));
    var g4 := Advance(1, g3, CheckRegistered(1));
    forall u | u != 1 ensures PcOf(g4, u).Idle? {
      assert PcOf(g2, u).Idle?;
    }
    ReachableInv(1, g4);
    ParkedWakesExactlyWhen(g4, 1);
    assert Reachable(1, g4) && Stranded(g4, 1);
  }

  /** Parked, not to be woken by anything under way, and nobody else inside any call. */
  ghost predicate Stranded(g: Gate, t: Tid) {
    PcOf(g, t).Parked? && !CanBeWoken(g, t) && forall u :: u != t ==> PcOf(g, u).Idle?
  }

  lemma ReachableInv(limit: NonZeroU64, g: Gate)
    requires Reachable(limit, g)
    ensures Inv(g)
  {
    var trace, actions :| IsRun(limit, trace, actions) && trace[|trace| - 1] == g;
    RunsKeepInv(limit, trace, actions, |trace| - 1);
  }

  /** Caller 0 is elected at a spent limit of one while caller 1 loses the election. */
  lemma LoseElection(g: Gate) returns (g': Gate)
    requires Reachable(1, g) && g.calls == g.limit == 1 && !g.resetting && forall t :: PcOf(g, t).Idle?
    ensures Reachable(1, g') && g'.calls == g'.limit == 1 && g'.generation == g.generation
    ensures g'.hasPolicy == g.hasPolicy
    ensures PcOf(g', 0) == Elected(1) && PcOf(g', 1) == Registering(1)
    ensures forall t :: t != 0 && t != 1 ==> PcOf(g', t).Idle?
  {
    hide Reachable;
    g' := g;
    assert PcOf(g, 0).Idle? && PcOf(g, 1).Idle?;
    g' := Advance(1, g', Begin(0));
    g' := Advance(1, g', LoadLimit(0));
    g' := Advance(1, g', LoadCalls(0));
    g' := Advance(1, g', Begin(1));
    g' := Advance(1, g', LoadLimit(1));
    g' := Advance(1, g', LoadCalls(1));
    g' := Advance(1, g', Elect(0));
    g' := Advance(1, g', Elect(1));
    forall t | t != 0 && t != 1 ensures PcOf(g', t).Idle? {
      assert PcOf(g, t).Idle?;
    }
  }

  lemma CancelElected(g: Gate) returns (g': Gate)
    requires Reachable(1, g) && g.calls == g.limit == 1 && PcOf(g, 0) == Elected(1)
    ensures Reachable(1, g') && g'.calls == g'.limit == 1 && !g'.resetting
    ensures PcOf(g', 0).Idle? && forall t :: t != 0 ==> PcOf(g', t) == PcOf(g, t)
  {
    hide Reachable;
    g' := g;
    g' := Advance(1, g', Recheck(0));
    g' := Advance(1, g', ReadPolicy(0));
    g' := Advance(1, g', EndWait(0, Cancelled));
    g' := Advance(1, g', Release(0));
    g' := Advance(1, g', Notify(0));
  }
}
