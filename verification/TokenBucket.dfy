/** The clock-driven token bucket (`token_bucket.rs` of cherry-pit-wq). Instants and durations are
    nanoseconds; the platform's earliest instant is zero. */
module TokenBucket {
  import opened Prelude

  type Instant = nat
  type Tid = nat

  const NANOS: nat := 1_000_000_000
  const MILLI_PER_TOKEN: nat := 1_000

  type Rate = n: nat | MILLI_PER_TOKEN <= n <= U64_MAX witness MILLI_PER_TOKEN

  /** Capacity and rate are at least one token, in thousandths. */
  datatype Bucket = Bucket(start: Instant, capacity: Rate, rate: Rate)

  function SaturatingSub(a: nat, b: nat): nat {
    if a < b then 0 else a - b
  }

  /** Rounds up; the divisor is positive. */
  function DivCeil(a: nat, b: nat): nat
    requires b > 0
  {
    if a % b == 0 then a / b else a / b + 1
  }

  function FillNanos(capacity: Rate, rate: Rate): nat {
    capacity * NANOS / rate
  }

  function BackdatedStart(now: Instant, capacity: Rate, rate: Rate): Instant {
    var fill := Min(FillNanos(capacity, rate), U64_MAX);
    if fill <= now then now - fill else now
  }

  function New(now: Instant, capacityTokens: NonZeroU64, refillTokensPerSec: NonZeroU64): Bucket {
    var capacity := Min(capacityTokens * MILLI_PER_TOKEN, U64_MAX);
    var rate := Min(refillTokensPerSec * MILLI_PER_TOKEN, U64_MAX);
    Bucket(BackdatedStart(now, capacity, rate), capacity, rate)
  }

  /** Thousandths generated by `now`, uncapped; the product saturates at 128 bits. */
  function Generated(b: Bucket, now: Instant): nat {
    Min(SaturatingSub(now, b.start) * b.rate, U128_MAX) / NANOS
  }

  datatype Attempt = Debit(next: nat) | Overflow | Refuse(wait: nat)

  /** One pass of the debit loop up to its compare-exchange. */
  function Try(b: Bucket, consumed: nat, now: Instant): Attempt {
    var generated := Generated(b, now);
    var effective := Max(consumed, SaturatingSub(generated, b.capacity));
    var available := SaturatingSub(generated, effective);
    if available >= MILLI_PER_TOKEN then
      if effective + MILLI_PER_TOKEN > U64_MAX then Overflow else Debit(effective + MILLI_PER_TOKEN)
    else
      Refuse(Min(DivCeil((MILLI_PER_TOKEN - available) * NANOS, b.rate), U64_MAX))
  }

  // ---------------------------------------------------------------------
  // Racing callers
  // ---------------------------------------------------------------------

  datatype Pc = Idle | Sampled(now: Instant) | Loaded(now: Instant, consumed: nat)

  /** A debit that landed: the reading it sampled, and the counter before and after. */
  datatype Landed = Landed(now: Instant, before: nat, after: nat)

  datatype State = State(consumed: nat, callers: map<Tid, Pc>, log: seq<Landed>)

  datatype Action =
    | Sample(t: Tid, now: Instant)
    | Load(t: Tid)
    | Finish(t: Tid, spurious: bool)

  function PcOf(s: State, t: Tid): Pc {
    if t in s.callers then s.callers[t] else Idle
  }

  predicate Enabled(s: State, a: Action) {
    match a
    case Sample(t, _) => PcOf(s, t).Idle?
    case Load(t) => PcOf(s, t).Sampled?
    case Finish(t, _) => PcOf(s, t).Loaded?
  }

  function Do(b: Bucket, s: State, a: Action): State
    requires Enabled(s, a)
  {
    match a
    case Sample(t, now) => s.(callers := s.callers[t := Sampled(now)])
    case Load(t) => s.(callers := s.callers[t := Loaded(PcOf(s, t).now, s.consumed)])
    case Finish(t, spurious) =>
      var pc := PcOf(s, t);
      var idle := s.(callers := s.callers[t := Idle]);
      match Try(b, pc.consumed, pc.now)
      case Debit(next) =>
        if spurious || s.consumed != pc.consumed then idle
        else idle.(consumed := next, log := s.log + [Landed(pc.now, s.consumed, next)])
      case _ => idle
  }

  ghost predicate IsRun(b: Bucket, trace: seq<State>, actions: seq<Action>) {
    && |trace| == |actions| + 1
    && trace[0] == State(0, map[], [])
    && forall i :: 0 <= i < |actions| ==> Enabled(trace[i], actions[i]) && trace[i + 1] == Do(b, trace[i], actions[i])
  }

  /** The counter after a log of debits. */
  function Final(log: seq<Landed>): nat {
    if log == [] then 0 else log[|log| - 1].after
  }

  /** Each landed debit continued from the one before it and was a valid pass on what it read. */
  ghost predicate Chained(b: Bucket, log: seq<Landed>) {
    forall i :: 0 <= i < |log| ==>
      log[i].before == Final(log[..i]) && Try(b, log[i].before, log[i].now) == Debit(log[i].after)
  }

  lemma {:induction false} RunsAreChained(b: Bucket, trace: seq<State>, actions: seq<Action>, n: nat)
    requires IsRun(b, trace, actions) && n < |trace|
    ensures trace[n].consumed == Final(trace[n].log) && Chained(b, trace[n].log)
  {
    if n > 0 {
      RunsAreChained(b, trace, actions, n - 1);
      var s, s' := trace[n - 1], trace[n];
      if s'.log != s.log {
        assert s'.log[..|s.log|] == s.log;
        forall i | 0 <= i < |s'.log|
          ensures s'.log[i].before == Final(s'.log[..i])
          ensures Try(b, s'.log[i].before, s'.log[i].now) == Debit(s'.log[i].after)
        {
          if i < |s.log| {
            assert s'.log[i] == s.log[i] && s'.log[..i] == s.log[..i];
          }
        }
      }
    }
  }

  // ---------------------------------------------------------------------
  // How many debits a window of readings admits
  // ---------------------------------------------------------------------

  /** Debits whose sampled reading lies in `[from, to]`, wherever their exchange landed. */
  function CountIn(log: seq<Landed>, from: Instant, to: Instant): nat {
    if log == [] then 0
    else CountIn(log[..|log| - 1], from, to) + (if from <= log[|log| - 1].now <= to then 1 else 0)
  }

  lemma ProductMonotone(x: nat, y: nat, r: nat)
    requires x <= y
    ensures x * r <= y * r
  {
  }

  lemma GeneratedMonotone(b: Bucket, t: Instant, u: Instant)
    requires t <= u
    ensures Generated(b, t) <= Generated(b, u)
  {
    ProductMonotone(SaturatingSub(t, b.start), SaturatingSub(u, b.start), b.rate);
  }

  /** What a successful pass establishes about the counter. */
  lemma DebitBounds(b: Bucket, consumed: nat, now: Instant)
    requires Try(b, consumed, now).Debit?
    ensures var next := Try(b, consumed, now).next;
      && consumed + 1000 <= next <= Generated(b, now)
      && Generated(b, now) - b.capacity + 1000 <= next
      && next <= U64_MAX
  {
  }

  lemma ChainedPrefix(b: Bucket, log: seq<Landed>)
    requires Chained(b, log) && log != []
    ensures Chained(b, log[..|log| - 1])
  {
  }

  /** Once a reading at or after `from` has landed, the counter stays ahead of what was generated by
      `from`, less the capacity, by one token per landed reading of the window. */
  lemma {:induction false} WindowFloor(b: Bucket, log: seq<Landed>, from: Instant, to: Instant)
    requires Chained(b, log)
    ensures 1000 * CountIn(log, from, to) <= Final(log)
    ensures CountIn(log, from, to) > 0 ==>
      Generated(b, from) - b.capacity + 1000 * CountIn(log, from, to) <= Final(log)
  {
    if log != [] {
      var last := log[|log| - 1];
      ChainedPrefix(b, log);
      WindowFloor(b, log[..|log| - 1], from, to);
      assert Try(b, last.before, last.now) == Debit(last.after);
      DebitBounds(b, last.before, last.now);
      if from <= last.now <= to {
        GeneratedMonotone(b, from, last.now);
      }
    }
  }

  /** The bound for any chained log of debits. */
  lemma {:induction false} WindowBound(b: Bucket, log: seq<Landed>, from: Instant, to: Instant)
    requires Chained(b, log) && from <= to
    ensures 1000 * CountIn(log, from, to) <= b.capacity + Generated(b, to) - Generated(b, from)
    ensures 1000 * CountIn(log, from, to) <= Generated(b, to)
  {
    GeneratedMonotone(b, from, to);
    if log != [] {
      var last := log[|log| - 1];
      if from <= last.now <= to {
        WindowFloor(b, log, from, to);
        assert Try(b, last.before, last.now) == Debit(last.after);
        DebitBounds(b, last.before, last.now);
        GeneratedMonotone(b, last.now, to);
      } else {
        ChainedPrefix(b, log);
        WindowBound(b, log[..|log| - 1], from, to);
      }
    }
  }

  /** In every run of racing callers, the debits sampled in a window are covered by one capacity plus
      what the window generated. */
  lemma AdmissionsInWindow(b: Bucket, trace: seq<State>, actions: seq<Action>, n: nat, from: Instant, to: Instant)
    requires IsRun(b, trace, actions) && n < |trace| && from <= to
    ensures 1000 * CountIn(trace[n].log, from, to) <= b.capacity + Generated(b, to) - Generated(b, from)
  {
    RunsAreChained(b, trace, actions, n);
    WindowBound(b, trace[n].log, from, to);
  }

  // ---------------------------------------------------------------------
  // Bursts at one reading
  // ---------------------------------------------------------------------

  /** The counter after `k` debits in a row at one reading, if none is turned away. */
  function Burst(b: Bucket, consumed: nat, now: Instant, k: nat): Option<nat> {
    if k == 0 then Some(consumed)
    else
      match Burst(b, consumed, now, k - 1)
      case None => None
      case Some(c) => match Try(b, c, now) case Debit(next) => Some(next) case _ => None
  }

  /** After an idle gap that filled the bucket, exactly a capacity of whole tokens can be taken at
      one reading, and the next is refused. */
  lemma {:induction false} IdleBurstIsCapacity(b: Bucket, consumed: nat, now: Instant, k: nat)
    requires consumed + b.capacity <= Generated(b, now) <= U64_MAX
    ensures Burst(b, consumed, now, k).Some? <==> 1000 * k <= b.capacity
    ensures 0 < k && 1000 * k <= b.capacity ==>
      Burst(b, consumed, now, k) == Some(Generated(b, now) - b.capacity + 1000 * k)
    ensures 1000 * k <= b.capacity < 1000 * (k + 1) ==> Try(b, Burst(b, consumed, now, k).value, now).Refuse?
  {
    if k > 0 {
      IdleBurstIsCapacity(b, consumed, now, k - 1);
    }
  }

  // ---------------------------------------------------------------------
  // Refusals and their waits
  // ---------------------------------------------------------------------

  lemma DivCeilBounds(a: nat, b: nat)
    requires b > 0
    ensures a <= DivCeil(a, b) * b < a + b
  {
  }

  /** A refusal reports between one nanosecond and one second. */
  lemma WaitIsAtMostASecond(b: Bucket, consumed: nat, now: Instant)
    requires Try(b, consumed, now).Refuse?
    ensures 1 <= Try(b, consumed, now).wait <= NANOS
  {
    var available := Available(b, consumed, now);
    var a := (MILLI_PER_TOKEN - available) * NANOS;
    DivCeilBounds(a, b.rate);
    var w := DivCeil(a, b.rate);
    assert w >= 1;
    if w > NANOS {
      ProductMonotone(NANOS + 1, w, b.rate);
      ProductMonotone(MILLI_PER_TOKEN, b.rate, NANOS);
    }
  }

  function Available(b: Bucket, consumed: nat, now: Instant): nat {
    var generated := Generated(b, now);
    SaturatingSub(generated, Max(consumed, SaturatingSub(generated, b.capacity)))
  }

  /** A refusal means the bucket is short of one token, well below any saturation. */
  lemma RefusedMeansShort(b: Bucket, consumed: U64, now: Instant)
    requires Try(b, consumed, now).Refuse?
    ensures Generated(b, now) < consumed + 1000
    ensures SaturatingSub(now, b.start) * b.rate < (consumed + 1000) * NANOS
    ensures consumed <= Generated(b, now) ==> Available(b, consumed, now) == Generated(b, now) - consumed
  {
  }

  /** The unclamped wait, and what it adds to the generated amount. */
  lemma WaitCoversDeficit(b: Bucket, consumed: U64, now: Instant)
    requires Try(b, consumed, now).Refuse?
    ensures var w := Try(b, consumed, now).wait; var deficit := 1000 - Available(b, consumed, now);
      && deficit * NANOS <= w * b.rate < deficit * NANOS + b.rate
  {
    var a := (MILLI_PER_TOKEN - Available(b, consumed, now)) * NANOS;
    DivCeilBounds(a, b.rate);
    WaitIsAtMostASecond(b, consumed, now);
  }

  lemma ElapsedProduct(now: Instant, w: nat, start: Instant, rate: nat)
    ensures SaturatingSub(now + w, start) * rate <= SaturatingSub(now, start) * rate + w * rate
    ensures start <= now ==> SaturatingSub(now + w, start) * rate == SaturatingSub(now, start) * rate + w * rate
  {
  }

  /** At any reading, a pass is not refused exactly when time has generated the counter and one token
      more. */
  lemma RefusedExactlyWhen(b: Bucket, consumed: U64, now: Instant)
    ensures Try(b, consumed, now).Refuse? <==> SaturatingSub(now, b.start) * b.rate < (consumed + 1000) * NANOS
  {
    var g := Generated(b, now);
    assert Try(b, consumed, now).Refuse? <==> g < consumed + 1000;
    hide Try;
  }

  lemma StaysDebitable(b: Bucket, consumed: U64, now: Instant, later: Instant)
    requires now <= later && !Try(b, consumed, now).Refuse?
    ensures !Try(b, consumed, later).Refuse?
  {
    RefusedExactlyWhen(b, consumed, now);
    RefusedExactlyWhen(b, consumed, later);
    ProductMonotone(SaturatingSub(now, b.start), SaturatingSub(later, b.start), b.rate);
    hide Try;
  }

  /** Exactly when waiting as told is enough, with no other debit in between: the amount generated by
      the sampled reading and by the wait covers the counter and one token more. A reading that is not
      behind the counter always does. So is then any longer wait. The pass debits, unless the counter
      is at the end of its 64 bits. */
  lemma WaitSuffices(b: Bucket, consumed: U64, now: Instant)
    requires b.start <= now && Try(b, consumed, now).Refuse?
    ensures var w := Try(b, consumed, now).wait;
      && (!Try(b, consumed, now + w).Refuse? <==> (consumed + 1000) * NANOS <= (now - b.start) * b.rate + w * b.rate)
      && (consumed <= Generated(b, now) ==> !Try(b, consumed, now + w).Refuse?)
      && (!Try(b, consumed, now + w).Refuse? ==> forall later :: now + w <= later ==> !Try(b, consumed, later).Refuse?)
      && (Try(b, consumed, now + w).Overflow? <==>
            !Try(b, consumed, now + w).Refuse? && Max(consumed, Generated(b, now + w) - b.capacity) + 1000 > U64_MAX)
  {
    var w := Try(b, consumed, now).wait;
    RefusedExactlyWhen(b, consumed, now + w);
    ElapsedProduct(now, w, b.start, b.rate);
    if consumed <= Generated(b, now) {
      DeficitCovered(b, consumed, now);
    }
    forall later | now + w <= later && !Try(b, consumed, now + w).Refuse? ensures !Try(b, consumed, later).Refuse? {
      StaysDebitable(b, consumed, now + w, later);
    }
    hide Generated;
  }

  lemma DeficitCovered(b: Bucket, consumed: U64, now: Instant)
    requires b.start <= now && Try(b, consumed, now).Refuse? && consumed <= Generated(b, now)
    ensures (consumed + 1000) * NANOS <= (now - b.start) * b.rate + Try(b, consumed, now).wait * b.rate
  {
    RefusedMeansShort(b, consumed, now);
    WaitCoversDeficit(b, consumed, now);
    assert Generated(b, now) * NANOS <= (now - b.start) * b.rate;
  }

  /** No shorter wait would do by more than the time one thousandth of a token takes, rounded up. */
  lemma WaitIsNearlyLeast(b: Bucket, consumed: U64, now: Instant, w: nat)
    requires Try(b, consumed, now).Refuse?
    requires !Try(b, consumed, now + w).Refuse?
    ensures Try(b, consumed, now).wait <= w + DivCeil(NANOS, b.rate)
  {
    var wait := Try(b, consumed, now).wait;
    RefusedMeansShort(b, consumed, now);
    WaitCoversDeficit(b, consumed, now);
    ElapsedProduct(now, w, b.start, b.rate);
    DivCeilBounds(NANOS, b.rate);
    var deficit := 1000 - Available(b, consumed, now);
    var e := SaturatingSub(now, b.start) * b.rate;
    assert consumed + 1000 <= Generated(b, now + w);
    assert e < (Generated(b, now) + 1) * NANOS;
    assert (deficit - 1) * NANOS < w * b.rate;
    var c := DivCeil(NANOS, b.rate);
    assert wait * b.rate < w * b.rate + c * b.rate + b.rate;
    assert w * b.rate + c * b.rate + b.rate == (w + c + 1) * b.rate;
    if wait >= w + c + 1 {
      ProductMonotone(w + c + 1, wait, b.rate);
    }
  }

  /** A caller whose reading is behind the counter can be told a wait that is too short. The state is
      one of a run: the caller samples a reading, another one samples a later reading and debits, and
      only then does the first load the counter. */
  lemma StaleReadingWaitCanFallShort() returns (trace: seq<State>, actions: seq<Action>)
    ensures var b := New(NANOS, 1, 1);
      && IsRun(b, trace, actions) && |actions| == 5
      && var pc := PcOf(trace[5], 0);
      && pc.Loaded? && pc.consumed == trace[5].consumed && NANOS <= pc.now
      && Try(b, pc.consumed, pc.now) == Refuse(NANOS) && Try(b, pc.consumed, pc.now + NANOS).Refuse?
  {
    var b := Bucket(0, 1000, 1000);
    assert New(NANOS, 1, 1) == b;
    assert Generated(b, NANOS) == 1000 && Generated(b, 2 * NANOS) == 2000;
    assert Try(b, 0, 2 * NANOS) == Debit(2000);
    actions := [Sample(0, NANOS), Sample(1, 2 * NANOS), Load(1), Finish(1, false), Load(0)];
    var s1 := State(0, map[0 := Sampled(NANOS)], []);
    var s2 := State(0, map[0 := Sampled(NANOS), 1 := Sampled(2 * NANOS)], []);
    var s3 := State(0, map[0 := Sampled(NANOS), 1 := Loaded(2 * NANOS, 0)], []);
    var s4 := State(2000, map[0 := Sampled(NANOS), 1 := Idle], [Landed(2 * NANOS, 0, 2000)]);
    var s5 := State(2000, map[0 := Loaded(NANOS, 2000), 1 := Idle], [Landed(2 * NANOS, 0, 2000)]);
    hide Try;
    assert Do(b, s1, actions[1]) == s2;
    assert Do(b, s2, actions[2]) == s3;
    assert Do(b, s3, actions[3]) == s4;
    assert Do(b, s4, actions[4]) == s5;
    trace := [State(0, map[], []), s1, s2, s3, s4, s5];
    StaleRefused();
  }

  lemma StaleRefused()
    ensures var b := Bucket(0, 1000, 1000); Try(b, 2000, NANOS) == Refuse(NANOS) && Try(b, 2000, 2 * NANOS).Refuse?
  {
  }

  // ---------------------------------------------------------------------
  // Construction
  // ---------------------------------------------------------------------

  /** Neither clamped to 64 bits nor earlier than the platform's first instant. */
  predicate BackdatesFully(now: Instant, capacity: Rate, rate: Rate) {
    FillNanos(capacity, rate) <= Min(now, U64_MAX)
  }

  lemma FillProduct(capacity: Rate, rate: Rate)
    ensures FillNanos(capacity, rate) * rate == capacity * NANOS - capacity * NANOS % rate
  {
  }

  /** A new bucket holds its capacity less the rounding of the fill time: never over-full. */
  lemma StartingLevel(now: Instant, capacity: Rate, rate: Rate)
    requires BackdatesFully(now, capacity, rate)
    ensures var b := Bucket(BackdatedStart(now, capacity, rate), capacity, rate);
      Generated(b, now) == capacity - DivCeil(capacity * NANOS % rate, NANOS)
  {
    FillProduct(capacity, rate);
  }

  /** It starts exactly full if and only if backdating neither clamps nor falls back and the fill time
      is a whole number of nanoseconds. */
  lemma StartsFullExactlyWhen(now: Instant, capacity: Rate, rate: Rate)
    ensures var b := Bucket(BackdatedStart(now, capacity, rate), capacity, rate);
      Generated(b, now) == capacity <==> BackdatesFully(now, capacity, rate) && capacity * NANOS % rate == 0
  {
    if BackdatesFully(now, capacity, rate) {
      StartingLevel(now, capacity, rate);
    } else {
      ClampedIsNotFull(now, capacity, rate);
    }
  }

  lemma ClampedIsNotFull(now: Instant, capacity: Rate, rate: Rate)
    requires !BackdatesFully(now, capacity, rate)
    ensures Generated(Bucket(BackdatedStart(now, capacity, rate), capacity, rate), now) < capacity
  {
    FillProduct(capacity, rate);
    var elapsed := now - BackdatedStart(now, capacity, rate);
    assert elapsed <= FillNanos(capacity, rate) - 1;
    ProductMonotone(elapsed, FillNanos(capacity, rate) - 1, rate);
  }

  /** One token at three per second: the first debit after construction is refused. */
  lemma NewBucketCanRefuseItsFirstToken()
    ensures BackdatesFully(NANOS, 1000, 3000)
    ensures Try(New(NANOS, 1, 3), 0, NANOS).Refuse?
  {
  }

  /** In every run, the debits sampled within `delta` of construction are covered by the capacity
      plus what `delta` generates. */
  lemma AdmissionsSinceConstruction(now: Instant, capacity: Rate, rate: Rate, delta: nat,
                                    trace: seq<State>, actions: seq<Action>, n: nat)
    requires IsRun(Bucket(BackdatedStart(now, capacity, rate), capacity, rate), trace, actions) && n < |trace|
    ensures 1000 * CountIn(trace[n].log, 0, now + delta) <= capacity + delta * rate / NANOS
  {
    var b := Bucket(BackdatedStart(now, capacity, rate), capacity, rate);
    RunsAreChained(b, trace, actions, n);
    WindowBound(b, trace[n].log, 0, now + delta);
    FillProduct(capacity, rate);
    ElapsedProduct(now, delta, b.start, b.rate);
    ProductMonotone(now - b.start, FillNanos(capacity, rate), rate);
    assert SaturatingSub(now + delta, b.start) * b.rate <= capacity * NANOS + delta * rate;
  }
}
