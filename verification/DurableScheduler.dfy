/** One durable-scheduler driver with nobody else writing (`scheduler.rs` of cherry-pit-app).
    The interleaved case is `SchedulerProtocol`. */
module DurableSchedulers {
  import opened Prelude
  import opened EventStore
  import opened InMemoryEventStores
  import opened SchedulerState
  import opened SchedulerProtocol

  datatype AgentError = Store(error: StoreError) | Policy | Bus

  /** A payload decoder: when it succeeds, the event carries the caller identity of the fire. */
  type Decoder = d: ScheduleFired -> Option<CallerEvent> |
      forall f :: d(f).Some? ==> d(f).value.scheduledEventId == f.callerEventId
    witness (_: ScheduleFired) => None

  datatype FireOutcome = DidFire | WasTerminal | WasUnknown | WasNotDue

  datatype RecoveryReport = RecoveryReport(fired: nat, completed: nat)

  /** Each recorded fire has its caller event in the target store. */
  ghost predicate Completed(h: History, target: EventStoreState<CallerEvent>) {
    forall f :: Recorded(h, f) ==> Holds(StreamOf(target, f.target), f.callerEventId)
  }

  /** The schedule's last event is an `Armed` due by `now`. */
  ghost predicate DueAt(h: History, id: ScheduleId, now: Timestamp) {
    exists a :: PendingFrom(h, id, a) && a.fireAt <= now
  }

  /** No schedule that never fired is still pending and due. */
  ghost predicate NothingDue(h: History, now: Timestamp) {
    forall id :: DueAt(h, id, now) ==> EverFired(h, id)
  }

  /** `h'` is `h` followed by fires only. */
  ghost predicate OnlyFires(h: History, h': History) {
    h <= h' && forall i :: |h| <= i < |h'| ==> h'[i].payload.Fired?
  }

  // ---------------------------------------------------------------------
  // What one call writes, and when it succeeds
  // ---------------------------------------------------------------------

  /** The target store after completing a fire: the decoded event appended unless its id is there. */
  function CompleteEffect(t: EventStoreState<CallerEvent>, f: ScheduleFired, decoded: Option<CallerEvent>, id: Uuid)
    : EventStoreState<CallerEvent>
  {
    var found := StreamOf(t, f.target);
    if Holds(found, f.callerEventId) || decoded.None? || found == [] then t
    else Append(t, f.target, LastSequence(found), [decoded.value], f.correlation, [id]).0
  }

  /** Both stores after firing a schedule: the fact first, then the caller event if the fact landed. */
  function FireEffect(s: EventStoreState<SchedulerEvent>, t: EventStoreState<CallerEvent>, schedule: ScheduleId,
                      now: Timestamp, decode: Decoder, factId: Uuid, eventId: Uuid)
    : (EventStoreState<SchedulerEvent>, EventStoreState<CallerEvent>)
  {
    var h := StreamOf(s, SINGLETON);
    match Decide(h, schedule, now)
    case Fire(f) =>
      if h == [] then (s, t) else
      var (s', r) := Append(s, SINGLETON, LastSequence(h), [Fired(f)], f.correlation, [factId]);
      if r.Ok? then (s', CompleteEffect(t, f, decode(f), eventId)) else (s, t)
    case _ => (s, t)
  }

  /** The target holds the caller event of the fire, or it can be written with room for `n` events: the
      bus is up, the decoder answers, and the target exists and is not full. */
  ghost predicate Completable(decode: Decoder, busUp: bool, t: EventStoreState<CallerEvent>, f: ScheduleFired, n: nat) {
    || Holds(StreamOf(t, f.target), f.callerEventId)
    || (busUp && decode(f).Some? && StreamOf(t, f.target) != [] && |StreamOf(t, f.target)| + n <= U64_MAX)
  }

  /** An append of one event at the last sequence succeeds exactly when the stream is not full. */
  lemma AppendOneSucceeds<E>(st: EventStoreState<E>, first: Uuid, id: AggregateId, e: E, ctx: CorrelationContext)
    requires ValidState(st, first) && StreamOf(st, id) != []
    ensures Draw(first, 1) == [first]
    ensures Append(st, id, LastSequence(StreamOf(st, id)), [e], ctx, [first]).1.Ok? <==> |StreamOf(st, id)| < U64_MAX
  {
  }

  /** Each stream was extended by at most `n` events. */
  ghost predicate GrownBy(t: EventStoreState<CallerEvent>, t': EventStoreState<CallerEvent>, n: nat) {
    forall g :: StreamOf(t, g) <= StreamOf(t', g) && |StreamOf(t', g)| <= |StreamOf(t, g)| + n
  }

  lemma CompleteGrows(t: EventStoreState<CallerEvent>, f: ScheduleFired, decoded: Option<CallerEvent>, id: Uuid)
    ensures GrownBy(t, CompleteEffect(t, f, decoded, id), 1)
  {
  }

  lemma GrowsOnceMore(t: EventStoreState<CallerEvent>, t': EventStoreState<CallerEvent>,
                      t'': EventStoreState<CallerEvent>, n: nat)
    requires GrownBy(t, t', n) && GrownBy(t', t'', 1)
    ensures GrownBy(t, t'', n + 1)
  {
    forall g ensures StreamOf(t, g) <= StreamOf(t'', g) && |StreamOf(t'', g)| <= |StreamOf(t, g)| + n + 1 {
      assert StreamOf(t, g) <= StreamOf(t', g) <= StreamOf(t'', g);
    }
  }

  ghost predicate AllCompletable(decode: Decoder, busUp: bool, t: EventStoreState<CallerEvent>,
                                 todo: seq<ScheduleFired>, n: nat) {
    forall f :: f in todo ==> Completable(decode, busUp, t, f, n)
  }

  lemma StaysCompletable(decode: Decoder, busUp: bool, t: EventStoreState<CallerEvent>,
                         t': EventStoreState<CallerEvent>, f: ScheduleFired, n: nat, done: nat)
    requires GrownBy(t, t', done) && done < n && Completable(decode, busUp, t, f, n)
    ensures Completable(decode, busUp, t', f, n - done)
  {
    assert StreamOf(t, f.target) <= StreamOf(t', f.target);
  }

  ghost predicate AllHeld(t: EventStoreState<CallerEvent>, todo: seq<ScheduleFired>) {
    forall f :: f in todo ==> Holds(StreamOf(t, f.target), f.callerEventId)
  }

  lemma NextIsCompletable(decode: Decoder, busUp: bool, t0: EventStoreState<CallerEvent>,
                          t: EventStoreState<CallerEvent>, todo: seq<ScheduleFired>, i: nat)
    requires i < |todo| && GrownBy(t0, t, i)
    ensures AllCompletable(decode, busUp, t0, todo, |todo|) ==> Completable(decode, busUp, t, todo[i], 1)
    ensures AllHeld(t0, todo) ==> Holds(StreamOf(t0, todo[i].target), todo[i].callerEventId)
  {
    assert todo[i] in todo;
    if AllCompletable(decode, busUp, t0, todo, |todo|) {
      StaysCompletable(decode, busUp, t0, t, todo[i], |todo|, i);
    }
  }

  // ---------------------------------------------------------------------
  // Which caller events a fire adds
  // ---------------------------------------------------------------------

  /** The fire at `k` carries this caller event id for this target. */
  ghost predicate Carries(h: History, k: nat, g: AggregateId, x: Uuid) {
    k < |h| && h[k].payload.Fired? && h[k].payload.fired.target == g && h[k].payload.fired.callerEventId == x
  }

  ghost predicate Carried(h: History, n: nat, g: AggregateId, x: Uuid) {
    exists k :: 0 <= k < n && Carries(h, k, g, x)
  }

  /** The target store holds one caller event id more, or had it already. */
  ghost predicate HoldsOneMore(t: EventStoreState<CallerEvent>, t': EventStoreState<CallerEvent>, g: AggregateId,
                               x: Uuid) {
    forall i, y :: Holds(StreamOf(t', i), y) <==> Holds(StreamOf(t, i), y) || (i == g && y == x)
  }

  /** The target store holds what it held at first and what the fires of `h` carry, nothing else. */
  ghost predicate HoldsFires(h: History, t0: EventStoreState<CallerEvent>, t: EventStoreState<CallerEvent>) {
    forall g, x :: Holds(StreamOf(t, g), x) <==> Holds(StreamOf(t0, g), x) || Carried(h, |h|, g, x)
  }

  /** The caller event of the fire at `k` was neither in the target at first nor carried by an earlier
      fire. */
  ghost predicate FreshFire(h: History, k: nat, t0: EventStoreState<CallerEvent>) {
    && k < |h| && h[k].payload.Fired?
    && var f := h[k].payload.fired;
    !Holds(StreamOf(t0, f.target), f.callerEventId) && !Carried(h, k, f.target, f.callerEventId)
  }

  ghost predicate FreshFires(h: History, n: nat, t0: EventStoreState<CallerEvent>) {
    forall k :: n <= k < |h| ==> FreshFire(h, k, t0)
  }

  lemma CarriedOnLonger(h: History, e: Envelope<SchedulerEvent>, n: nat, g: AggregateId, x: Uuid)
    requires n <= |h|
    ensures Carried(h + [e], n, g, x) <==> Carried(h, n, g, x)
  {
    assert forall k :: 0 <= k < n ==> (Carries(h + [e], k, g, x) <==> Carries(h, k, g, x));
  }

  /** One more fire: what the target then holds, and whether the fires are still all fresh. */
  lemma FireStep(h: History, e: Envelope<SchedulerEvent>, n: nat, t0: EventStoreState<CallerEvent>,
                 t: EventStoreState<CallerEvent>, t': EventStoreState<CallerEvent>)
    requires e.payload.Fired? && n <= |h| && HoldsFires(h, t0, t)
    requires HoldsOneMore(t, t', e.payload.fired.target, e.payload.fired.callerEventId)
    ensures HoldsFires(h + [e], t0, t')
    ensures FreshFires(h + [e], n, t0) <==>
      FreshFires(h, n, t0) && !Holds(StreamOf(t, e.payload.fired.target), e.payload.fired.callerEventId)
  {
    var h', f := h + [e], e.payload.fired;
    forall g, x ensures Holds(StreamOf(t', g), x) <==> Holds(StreamOf(t0, g), x) || Carried(h', |h'|, g, x) {
      CarriedOnLonger(h, e, |h|, g, x);
      CarriedLast(h', g, x);
    }
    forall k | n <= k < |h| ensures FreshFire(h', k, t0) <==> FreshFire(h, k, t0) {
      if h[k].payload.Fired? {
        CarriedOnLonger(h, e, k, h[k].payload.fired.target, h[k].payload.fired.callerEventId);
      }
    }
    CarriedOnLonger(h, e, |h|, f.target, f.callerEventId);
    assert FreshFire(h', |h|, t0) <==> !Holds(StreamOf(t, f.target), f.callerEventId);
  }

  lemma AppendedHolds(t: EventStoreState<CallerEvent>, t': EventStoreState<CallerEvent>, g: AggregateId,
                      e: Envelope<CallerEvent>)
    requires StreamOf(t', g) == StreamOf(t, g) + [e] && forall k :: k != g ==> StreamOf(t', k) == StreamOf(t, k)
    ensures HoldsOneMore(t, t', g, e.payload.scheduledEventId) && Holds(StreamOf(t', g), e.payload.scheduledEventId)
  {
    var n := |StreamOf(t, g)|;
    assert StreamOf(t', g)[n] == e;
    assert forall i :: 0 <= i < n ==> StreamOf(t', g)[i] == StreamOf(t, g)[i];
  }

  lemma CarriedLast(h: History, g: AggregateId, x: Uuid)
    requires h != []
    ensures Carried(h, |h|, g, x) <==> Carried(h, |h| - 1, g, x) || Carries(h, |h| - 1, g, x)
  {
  }

  lemma EverFiredGrows(h: History, h': History, id: ScheduleId)
    requires h <= h' && EverFired(h, id)
    ensures EverFired(h', id)
  {
  }

  /** A pending schedule stays pending under fires of other schedules. */
  lemma PendingOrFired(h: History, h': History, id: ScheduleId, a: ScheduleArmed)
    requires OnlyFires(h, h') && PendingFrom(h, id, a)
    ensures PendingFrom(h', id, a) || EverFired(h', id)
  {
  }

  /** Fires create no pending schedules. */
  lemma PendingBefore(h: History, h': History, id: ScheduleId, a: ScheduleArmed)
    requires OnlyFires(h, h') && PendingFrom(h', id, a)
    ensures PendingFrom(h, id, a)
  {
  }

  /** With at most one fire per schedule, replay retains every recorded fire. */
  lemma ReplayRetainsFires(h: History, f: ScheduleFired)
    requires AtMostOneFire(h) && Recorded(h, f)
    ensures f in FiredInOrder(Replay(h))
  {
    ReplayReads(h);
    var s := Replay(h);
    var i :| 0 <= i < |h| && h[i].payload == Fired(f);
    assert EverFired(h, f.scheduleId);
    var g := s.fired[f.scheduleId];
    assert FiredLast(h, f.scheduleId, g);
    var k :| 0 <= k < |h| && h[k].payload == Fired(g) && g.scheduleId == f.scheduleId;
    assert Subject(h[i].payload) == Subject(h[k].payload);
    assert g == f;
    assert f in s.fired.Values;
  }

  lemma AppendKeepsOneFire(h: History, e: Envelope<SchedulerEvent>)
    requires AtMostOneFire(h) && (e.payload.Fired? ==> !EverFired(h, Subject(e.payload)))
    ensures AtMostOneFire(h + [e])
  {
  }

  function Last<T>(s: seq<T>): T
    requires s != []
  {
    s[|s| - 1]
  }

  class DurableScheduler {
    const schedulerStore: InMemoryEventStore<SchedulerEvent>
    const targetStore: InMemoryEventStore<CallerEvent>
    const decode: Decoder
    const busUp: bool
    var published: seq<Envelope<CallerEvent>>

    function History(): History
      reads schedulerStore
    {
      StreamOf(schedulerStore.state, SINGLETON)
    }

    ghost predicate Valid()
      reads this, schedulerStore, targetStore
    {
      && schedulerStore as object != targetStore as object
      && schedulerStore.Valid() && targetStore.Valid()
      && AtMostOneFire(History())
    }

    constructor (schedulerStore: InMemoryEventStore<SchedulerEvent>, targetStore: InMemoryEventStore<CallerEvent>,
                 decode: Decoder, busUp: bool)
      requires schedulerStore as object != targetStore as object && schedulerStore.Valid() && targetStore.Valid()
      requires AtMostOneFire(StreamOf(schedulerStore.state, SINGLETON))
      ensures Valid() && published == []
      ensures this.schedulerStore == schedulerStore && this.targetStore == targetStore
      ensures this.decode == decode && this.busUp == busUp
    {
      this.schedulerStore := schedulerStore;
      this.targetStore := targetStore;
      this.decode := decode;
      this.busUp := busUp;
      this.published := [];
    }

    /** An arm or cancel fact can be recorded: the stream has room, or the next create is the singleton. */
    ghost predicate Appendable()
      reads schedulerStore
    {
      if History() == [] then schedulerStore.state.nextId == SINGLETON else |History()| < U64_MAX
    }

    /** On success the stream grows by exactly the event; on any error it is as before, even when
        the event landed in a second, orphaned stream. */
    method AppendScheduler(event: SchedulerEvent, ctx: CorrelationContext) returns (r: Result<(), AgentError>)
      requires Valid() && !event.Fired?
      modifies schedulerStore
      ensures Valid()
      ensures r.Err? ==> History() == old(History())
      ensures r.Ok? ==> |History()| > 0 && Last(History()).payload == event
      ensures r.Ok? ==> History() == old(History()) + [Last(History())]
      ensures r.Ok? <==> old(Appendable())
    {
      var loaded := schedulerStore.Load(SINGLETON);
      if loaded.value == [] {
        r := CreateStream(event, ctx);
      } else {
        r := ExtendStream(event, ctx);
      }
    }

    /** `append` after the loaded history. */
    method ExtendStream(event: SchedulerEvent, ctx: CorrelationContext) returns (r: Result<(), AgentError>)
      requires Valid() && History() != [] && (event.Fired? ==> !EverFired(History(), Subject(event)))
      modifies schedulerStore
      ensures Valid()
      ensures r.Err? ==> History() == old(History())
      ensures r.Ok? ==> |History()| > 0 && Last(History()).payload == event
      ensures r.Ok? ==> History() == old(History()) + [Last(History())]
      ensures r.Ok? <==> |old(History())| < U64_MAX
      ensures schedulerStore.state == Append(old(schedulerStore.state), SINGLETON, LastSequence(old(History())),
                                             [event], ctx,
                                             [old(schedulerStore.nextUuid)]).0
    {
      hide ValidState;
      hide EventStore.Append;
      hide Draw;
      var history := History();
      var last := history[|history| - 1].sequence;
      AppendOneSucceeds(schedulerStore.state, schedulerStore.nextUuid, SINGLETON, event, ctx);
      AppendOne(schedulerStore.state, SINGLETON, last, event, ctx, [schedulerStore.nextUuid]);
      var appended := schedulerStore.Append(SINGLETON, last, [event], ctx);
      match appended {
        case Err(e) => r := Err(Store(e));
        case Ok(envelopes) =>
          AppendKeepsOneFire(history, envelopes[0]);
          assert History() == history + [envelopes[0]];
          r := Ok(());
      }
    }

    /** `create` when nothing was loaded; the stream must come out as the singleton. */
    method CreateStream(event: SchedulerEvent, ctx: CorrelationContext) returns (r: Result<(), AgentError>)
      requires Valid() && History() == []
      modifies schedulerStore
      ensures Valid()
      ensures r.Err? ==> History() == []
      ensures r.Ok? ==> |History()| == 1 && History()[0].payload == event
      ensures r.Ok? <==> old(schedulerStore.state.nextId) == SINGLETON
    {
      CreateOne(schedulerStore.state, event, ctx, Draw(schedulerStore.nextUuid, 1));
      var created := schedulerStore.Create([event], ctx);
      match created {
        case Err(e) => r := Err(Store(e));
        case Ok((id, _)) => r := if id == SINGLETON then Ok(()) else Err(Store(Infrastructure));
      }
    }

    method Arm(event: ScheduleArmed) returns (r: Result<(), AgentError>)
      requires Valid()
      modifies schedulerStore
      ensures Valid()
      ensures r.Ok? ==> PendingFrom(History(), event.scheduleId, event)
      ensures r.Ok? ==>
        |History()| == |old(History())| + 1 && old(History()) < History() && Last(History()).payload == Armed(event)
      ensures r.Err? ==> History() == old(History())
      ensures r.Ok? <==> old(Appendable())
    {
      r := AppendScheduler(Armed(event), event.correlation);
      if r.Ok? {
        assert LastAbout(History(), event.scheduleId, |History()| - 1);
      }
    }

    method Cancel(id: ScheduleId, ctx: CorrelationContext) returns (r: Result<(), AgentError>)
      requires Valid()
      modifies schedulerStore
      ensures Valid()
      ensures r.Ok? ==> CancelledLast(History(), id) && forall a :: !PendingFrom(History(), id, a)
      ensures r.Err? ==> History() == old(History())
      ensures r.Ok? <==> old(Appendable())
    {
      r := AppendScheduler(Cancelled(id), ctx);
      if r.Ok? {
        assert LastAbout(History(), id, |History()| - 1);
        ReplayReads(History());
        assert CancelledLast(History(), id) by { assert History()[|History()| - 1].payload == Cancelled(id); }
      }
    }

    /** True when this call wrote the caller event, false when it was there already. */
    method CompleteFired(fired: ScheduleFired) returns (r: Result<bool, AgentError>)
      requires Valid()
      modifies this`published, targetStore
      ensures Valid() && Extends(old(targetStore.state), targetStore.state)
      ensures r.Ok? ==> Holds(StreamOf(targetStore.state, fired.target), fired.callerEventId)
      ensures r.Ok? ==> r.value == !Holds(old(StreamOf(targetStore.state, fired.target)), fired.callerEventId)
      ensures r == Ok(false) ==> targetStore.state == old(targetStore.state) && published == old(published)
      ensures r == Ok(true) ==> |published| > 0 && published == old(published) + [Last(published)]
      ensures r == Ok(true) ==>
        StreamOf(targetStore.state, fired.target) == old(StreamOf(targetStore.state, fired.target)) + [Last(published)]
      ensures Holds(old(StreamOf(targetStore.state, fired.target)), fired.callerEventId) ==> r == Ok(false)
      ensures r.Ok? ==> HoldsOneMore(old(targetStore.state), targetStore.state, fired.target, fired.callerEventId)
      ensures r.Ok? <==> Completable(decode, busUp, old(targetStore.state), fired, 1)
      ensures targetStore.state == CompleteEffect(old(targetStore.state), fired, decode(fired),
                                                  old(targetStore.nextUuid))
    {
      var loaded := targetStore.Load(fired.target);
      var history := loaded.value;
      if Holds(history, fired.callerEventId) {
        return Ok(false);
      }
      var event := decode(fired);
      if event.None? {
        return Err(Policy);
      }
      if history == [] {
        return Err(Store(Infrastructure));
      }
      r := WriteCallerEvent(fired, event.value);
      if r.Ok? {
        AppendedHolds(old(targetStore.state), targetStore.state, fired.target, Last(published));
      }
    }

    /** Append the caller event after the loaded target history, then publish it. */
    method WriteCallerEvent(fired: ScheduleFired, event: CallerEvent) returns (r: Result<bool, AgentError>)
      requires Valid() && StreamOf(targetStore.state, fired.target) != []
      requires event.scheduledEventId == fired.callerEventId
      modifies this`published, targetStore
      ensures Valid() && Extends(old(targetStore.state), targetStore.state)
      ensures r.Ok? ==> r.value && |published| > 0 && published == old(published) + [Last(published)]
      ensures r.Ok? ==> Last(published).payload == event
      ensures r.Ok? ==>
        StreamOf(targetStore.state, fired.target) == old(StreamOf(targetStore.state, fired.target)) + [Last(published)]
      ensures r.Ok? ==>
        forall k :: k != fired.target ==> StreamOf(targetStore.state, k) == old(StreamOf(targetStore.state, k))
      ensures r.Ok? <==> busUp && |old(StreamOf(targetStore.state, fired.target))| < U64_MAX
      ensures targetStore.state == Append(old(targetStore.state), fired.target,
                                          LastSequence(old(StreamOf(targetStore.state, fired.target))),
                                          [event], fired.correlation, [old(targetStore.nextUuid)]).0
    {
      hide ValidState;
      hide EventStore.Append;
      hide Draw;
      var history := StreamOf(targetStore.state, fired.target);
      var last := history[|history| - 1].sequence;
      AppendOneSucceeds(targetStore.state, targetStore.nextUuid, fired.target, event, fired.correlation);
      AppendOne(targetStore.state, fired.target, last, event, fired.correlation, [targetStore.nextUuid]);
      var appended := targetStore.Append(fired.target, last, [event], fired.correlation);
      match appended {
        case Err(e) => r := Err(Store(e));
        case Ok(envelopes) =>
          if busUp {
            published := published + envelopes;
            r := Ok(true);
          } else {
            r := Err(Bus);
          }
      }
    }

    method LoadScheduler() returns (history: History)
      requires Valid()
      ensures history == History()
    {
      var loaded := schedulerStore.Load(SINGLETON);
      history := loaded.value;
    }

    /** The replay half of a fire. */
    method DecideNow(id: ScheduleId, now: Timestamp) returns (d: FireDecision)
      requires Valid()
      ensures d == Decide(History(), id, now)
    {
      var history := LoadScheduler();
      var state := FromHistory(history);
      if id in state.fired || id in state.cancelled {
        return Terminal;
      }
      if id !in state.pending {
        return Unknown;
      }
      var armed := state.pending[id];
      if armed.fireAt > now {
        return NotDue;
      }
      if history == [] {
        return Unknown;
      }
      d := Fire(FromArmed(armed));
    }

    method FireSchedule(id: ScheduleId, now: Timestamp) returns (r: Result<FireOutcome, AgentError>)
      requires Valid()
      modifies this`published, schedulerStore, targetStore
      ensures Valid() && Extends(old(targetStore.state), targetStore.state)
      ensures OnlyFires(old(History()), History()) && |History()| <= |old(History())| + 1
      ensures match old(Decide(History(), id, now))
        case Terminal => r == Ok(WasTerminal)
        case Unknown => r == Ok(WasUnknown)
        case NotDue => r == Ok(WasNotDue)
        case Fire(f) =>
          && (r.Ok? <==> |old(History())| < U64_MAX && Completable(decode, busUp, old(targetStore.state), f, 1))
          && (History() != old(History()) ==>
                |History()| == |old(History())| + 1 && Last(History()).payload == Fired(f))
          && (r.Ok? ==>
            && r.value == DidFire
            && |History()| == |old(History())| + 1 && Last(History()).payload == Fired(f)
            && Holds(StreamOf(targetStore.state, f.target), f.callerEventId)
            && HoldsOneMore(old(targetStore.state), targetStore.state, f.target, f.callerEventId)
            && |published| == |old(published)| + Missing(old(targetStore.state), f))
      ensures (schedulerStore.state, targetStore.state) ==
        FireEffect(old(schedulerStore.state), old(targetStore.state), id, now, decode, old(schedulerStore.nextUuid),
                   old(targetStore.nextUuid))
      ensures !old(Decide(History(), id, now)).Fire? ==> Untouched()
    {
      hide ValidState;
      hide AtMostOneFire;
      var decision := DecideNow(id, now);
      match decision {
        case Terminal => return Ok(WasTerminal);
        case Unknown => return Ok(WasUnknown);
        case NotDue => return Ok(WasNotDue);
        case Fire(_) =>
      }
      var fired := decision.fired;
      FirstFire(History(), id, now);
      var recorded := ExtendStream(Fired(fired), fired.correlation);
      if recorded.Err? {
        return Err(recorded.error);
      }
      var completed := CompleteFired(fired);
      if completed.Err? {
        return Err(completed.error);
      }
      r := Ok(DidFire);
    }

    twostate predicate Untouched()
      reads this, schedulerStore, targetStore
    {
      && schedulerStore.state == old(schedulerStore.state) && targetStore.state == old(targetStore.state)
      && published == old(published)
    }

    /** First loop of recovery: complete every retained fire. */
    method CompleteAll(todo: seq<ScheduleFired>) returns (r: Result<nat, AgentError>)
      requires Valid()
      modifies this`published, targetStore
      ensures Valid() && Extends(old(targetStore.state), targetStore.state)
      ensures r.Ok? ==> HoldsList(todo, |todo|, old(targetStore.state), targetStore.state)
      ensures r.Ok? ==> GrownBy(old(targetStore.state), targetStore.state, |todo|)
      ensures r.Ok? ==> r.value == |published| - |old(published)|
      ensures AllHeld(old(targetStore.state), todo) ==>
        r == Ok(0) && targetStore.state == old(targetStore.state) && published == old(published)
      ensures AllCompletable(decode, busUp, old(targetStore.state), todo, |todo|) ==> r.Ok?
    {
      hide ValidState;
      hide AtMostOneFire;
      hide HoldsOneMore;
      hide CompleteEffect;
      hide Completable;
      hide HoldsList;
      hide GrownBy;
      hide AllHeld;
      hide AllCompletable;
      hide Holds;
      ghost var t0 := targetStore.state;
      var count := 0;
      var i := 0;
      EmptyList(todo, t0);
      while i < |todo|
        invariant 0 <= i <= |todo|
        invariant Valid() && Extends(t0, targetStore.state)
        invariant count == |published| - |old(published)|
        invariant HoldsList(todo, i, t0, targetStore.state) && GrownBy(t0, targetStore.state, i)
        invariant AllHeld(t0, todo) ==> count == 0 && targetStore.state == t0 && published == old(published)
      {
        ghost var before, id := targetStore.state, targetStore.nextUuid;
        NextIsCompletable(decode, busUp, t0, before, todo, i);
        var wrote := CompleteFired(todo[i]);
        if wrote.Err? {
          return Err(wrote.error);
        }
        if wrote.value {
          count := count + 1;
        }
        CompleteGrows(before, todo[i], decode(todo[i]), id);
        GrowsOnceMore(t0, before, targetStore.state, i);
        ListStep(todo, i, t0, before, targetStore.state);
        i := i + 1;
      }
      r := Ok(count);
    }

    /** One turn of the second loop: fire a schedule that was due when recovery loaded `h0`. */
    method FireOne(ghost h0: History, id: ScheduleId, now: Timestamp) returns (r: Result<bool, AgentError>)
      requires Valid() && OnlyFires(h0, History()) && DueAt(h0, id, now)
      modifies this`published, schedulerStore, targetStore
      ensures Valid()
      ensures OnlyFires(h0, History()) && old(History()) <= History()
      ensures r.Ok? ==> EverFired(History(), id) && GrownBy(old(targetStore.state), targetStore.state, 1)
      ensures r == Ok(true) ==> |History()| == |old(History())| + 1 && DueFire(h0, Last(History()).payload, now)
      ensures r == Ok(true) ==>
        var f := Last(History()).payload.fired;
        && HoldsOneMore(old(targetStore.state), targetStore.state, f.target, f.callerEventId)
        && |published| == |old(published)| + Missing(old(targetStore.state), f)
      ensures r == Ok(false) ==> Untouched()
      ensures old(EverFired(History(), id)) ==> r == Ok(false)
      ensures |old(History())| < U64_MAX && DueCompletable(decode, busUp, h0, old(targetStore.state), id, 1) ==> r.Ok?
    {
      hide ValidState;
      hide AtMostOneFire;
      hide HoldsOneMore;
      hide GrownBy;
      hide Completable;
      hide DueCompletable;
      hide FireEffect;
      ghost var h, s, t := History(), schedulerStore.state, targetStore.state;
      ghost var i, j := schedulerStore.nextUuid, targetStore.nextUuid;
      DueMeansFireOrTerminal(h0, h, id, now);
      DecidedIsCompletable(h0, h, id, now, decode, busUp, t);
      var outcome := FireSchedule(id, now);
      if outcome.Err? {
        return Err(outcome.error);
      }
      FireGrows(s, t, id, now, decode, i, j);
      FiredNow(h0, h, History(), id, now);
      r := Ok(outcome.value == DidFire);
    }

    /** Second loop of recovery: fire every schedule that was due. `t0` is the target store recovery
        started from. */
    method FireAll(due: seq<ScheduleId>, now: Timestamp, ghost t0: EventStoreState<CallerEvent>)
      returns (r: Result<nat, AgentError>)
      requires Valid() && HoldsFires(History(), t0, targetStore.state)
      requires forall id :: id in due ==> DueAt(History(), id, now)
      modifies this`published, schedulerStore, targetStore
      ensures Valid() && OnlyFires(old(History()), History())
      ensures r.Ok? ==>
        Progress(old(History()), History(), t0, targetStore.state, now, r.value, |published| - |old(published)|)
      ensures r.Ok? ==> AllFired(History(), due, |due|)
      ensures AllFired(old(History()), due, |due|) ==> r == Ok(0) && Untouched()
      ensures |old(History())| + |due| <= U64_MAX ==>
        AllDueCompletable(decode, busUp, old(History()), old(targetStore.state), due, |due|) ==> r.Ok?
    {
      hide ValidState;
      hide AtMostOneFire;
      hide HoldsOneMore;
      hide HoldsFires;
      hide Progress;
      hide EverFired;
      hide AllFired;
      hide DueAt;
      hide DueFire;
      hide Holds;
      hide GrownBy;
      hide DueCompletable;
      hide AllDueCompletable;
      hide OnlyFires;
      hide Missing;
      ghost var h0, t1 := History(), targetStore.state;
      StartFiring(h0, t0, t1, now, due);
      var count := 0;
      var i := 0;
      while i < |due|
        invariant 0 <= i <= |due|
        invariant Valid() && OnlyFires(h0, History()) && |h0| <= |History()| <= |h0| + i
        invariant Progress(h0, History(), t0, targetStore.state, now, count, |published| - |old(published)|)
        invariant AllFired(History(), due, i) && GrownBy(t1, targetStore.state, i)
        invariant AllFired(h0, due, |due|) ==> count == 0 && Untouched()
      {
        ghost var h, before, grown := History(), targetStore.state, |published| - |old(published)|;
        assert due[i] in due;
        NextDueIsCompletable(decode, busUp, h0, t1, before, due, i);
        var fired := FireOne(h0, due[i], now);
        if fired.Err? {
          return Err(fired.error);
        }
        if fired.value {
          count := count + 1;
          assert History() == h + [Last(History())];
          ProgressStep(h0, h, Last(History()), t0, before, targetStore.state, now, count - 1, grown);
        }
        AllFiredStep(h, History(), due, i);
        GrowsOnceMore(t1, before, targetStore.state, i);
        i := i + 1;
      }
      r := Ok(count);
    }

    /** After a recovery that returns Ok nothing recorded is incomplete and nothing is left to fire. The
        fires appended are exactly of what was due, and the report counts them. It counts the caller
        events written exactly when what is due carries caller event ids of its own, and too many
        otherwise. A recovery with nothing to do appends nothing and reports zeros. One that finds every
        caller event present, or the bus up, the decoder willing and room in the target, succeeds. */
    method RecoverDue(now: Timestamp) returns (r: Result<RecoveryReport, AgentError>)
      requires Valid()
      modifies this`published, schedulerStore, targetStore
      ensures Valid() && OnlyFires(old(History()), History())
      ensures r.Ok? ==> Completed(History(), targetStore.state) && NothingDue(History(), now)
      ensures r.Ok? ==> DueFires(old(History()), History(), now) && r.value.fired == |History()| - |old(History())|
      ensures r.Ok? ==> |published| - |old(published)| <= r.value.completed
      ensures r.Ok? ==>
        (|published| - |old(published)| == r.value.completed <==>
          CleanlyDue(old(History()), old(targetStore.state), now))
      ensures old(Completed(History(), targetStore.state) && NothingDue(History(), now)) ==>
        r == Ok(RecoveryReport(0, 0)) && Untouched()
      ensures Recoverable(decode, busUp, old(History()), old(targetStore.state), now) ==> r.Ok?
    {
      hide ValidState;
      hide AtMostOneFire;
      hide Completed;
      hide NothingDue;
      hide OnlyFires;
      hide HoldsFires;
      hide HoldsList;
      hide CleanlyDue;
      hide FreshFires;
      hide DueFires;
      hide Progress;
      hide AllHeld;
      hide AllFired;
      hide AllCompletable;
      hide AllDueCompletable;
      hide GrownBy;
      hide Recoverable;
      hide DueAt;
      hide Replay;
      hide FiredInOrder;
      hide DueInOrder;
      ghost var t0 := targetStore.state;
      var history := LoadScheduler();
      NoFires(history);
      var state := FromHistory(history);
      var todo, due := FiredInOrder(state), DueInOrder(state, now);
      DueListed(history, now);
      Settled(history, t0, now);
      RecoverableMeans(decode, busUp, history, t0, now);
      var completed := CompleteAll(todo);
      if completed.Err? {
        return Err(completed.error);
      }
      RetainedHold(history, t0, targetStore.state);
      DueStaysCompletable(decode, busUp, history, t0, targetStore.state, due, |todo|);
      ghost var written := |published| - |old(published)|;
      var fired := FireAll(due, now, t0);
      if fired.Err? {
        return Err(fired.error);
      }
      ProgressMeans(history, History(), t0, targetStore.state, now, fired.value,
                    |published| - |old(published)| - written);
      NothingLeft(history, History(), now);
      HoldsFiresCompletes(History(), t0, targetStore.state);
      FreshExactlyWhenClean(history, History(), t0, now);
      r := Ok(RecoveryReport(fired.value, completed.value + fired.value));
    }
  }

  lemma NoFires(h: History)
    ensures OnlyFires(h, h)
  {
  }

  /** Enough for a recovery to succeed: every recorded fire and every fire that is due has its caller
      event, or the bus is up, the decoder answers, its target exists, and no stream runs out of room. */
  ghost predicate Recoverable(decode: Decoder, busUp: bool, h: History, t: EventStoreState<CallerEvent>,
                              now: Timestamp) {
    var todo, due := FiredInOrder(Replay(h)), DueInOrder(Replay(h), now);
    && |h| + |due| <= U64_MAX
    && AllCompletable(decode, busUp, t, todo, |todo| + |due|)
    && AllDueCompletable(decode, busUp, h, t, due, |todo| + |due|)
  }

  lemma RecoverableMeans(decode: Decoder, busUp: bool, h: History, t: EventStoreState<CallerEvent>, now: Timestamp)
    ensures Recoverable(decode, busUp, h, t, now) ==>
      var todo, due := FiredInOrder(Replay(h)), DueInOrder(Replay(h), now);
      && |h| + |due| <= U64_MAX
      && AllCompletable(decode, busUp, t, todo, |todo|)
      && AllDueCompletable(decode, busUp, h, t, due, |todo| + |due|)
  {
    if Recoverable(decode, busUp, h, t, now) {
      var todo, due := FiredInOrder(Replay(h)), DueInOrder(Replay(h), now);
      forall f | f in todo ensures Completable(decode, busUp, t, f, |todo|) {
        assert Completable(decode, busUp, t, f, |todo| + |due|);
      }
    }
  }

  lemma DueStaysCompletable(decode: Decoder, busUp: bool, h: History, t: EventStoreState<CallerEvent>,
                            t': EventStoreState<CallerEvent>, due: seq<ScheduleId>, done: nat)
    requires GrownBy(t, t', done)
    ensures AllDueCompletable(decode, busUp, h, t, due, done + |due|) ==>
      AllDueCompletable(decode, busUp, h, t', due, |due|)
  {
    if AllDueCompletable(decode, busUp, h, t, due, done + |due|) && due != [] {
      forall id, a | id in due && !EverFired(h, id) && PendingFrom(h, id, a)
        ensures Completable(decode, busUp, t', FromArmed(a), |due|)
      {
        assert DueCompletable(decode, busUp, h, t, id, done + |due|);
        StaysCompletable(decode, busUp, t, t', FromArmed(a), done + |due|, done);
      }
      assert forall id :: id in due ==> DueCompletable(decode, busUp, h, t', id, |due|);
    }
  }

  /** With nothing incomplete and nothing due, both loops have nothing to do. */
  lemma Settled(h: History, t: EventStoreState<CallerEvent>, now: Timestamp)
    requires AtMostOneFire(h)
    ensures Completed(h, t) && NothingDue(h, now) ==>
      && AllHeld(t, FiredInOrder(Replay(h)))
      && AllFired(h, DueInOrder(Replay(h), now), |DueInOrder(Replay(h), now)|)
  {
    RetainedFiresAreRecorded(h);
    DueListed(h, now);
  }

  // ---------------------------------------------------------------------
  // The first loop
  // ---------------------------------------------------------------------

  ghost predicate InList(todo: seq<ScheduleFired>, n: nat, g: AggregateId, x: Uuid) {
    exists k :: 0 <= k < n && k < |todo| && todo[k].target == g && todo[k].callerEventId == x
  }

  /** The target store holds what it held at first and the caller events of the first `n` fires. */
  ghost predicate HoldsList(todo: seq<ScheduleFired>, n: nat, t0: EventStoreState<CallerEvent>,
                            t: EventStoreState<CallerEvent>) {
    forall g, x :: Holds(StreamOf(t, g), x) <==> Holds(StreamOf(t0, g), x) || InList(todo, n, g, x)
  }

  lemma EmptyList(todo: seq<ScheduleFired>, t: EventStoreState<CallerEvent>)
    ensures HoldsList(todo, 0, t, t) && GrownBy(t, t, 0)
  {
  }

  lemma ListStep(todo: seq<ScheduleFired>, n: nat, t0: EventStoreState<CallerEvent>, t: EventStoreState<CallerEvent>,
                 t': EventStoreState<CallerEvent>)
    requires n < |todo| && HoldsList(todo, n, t0, t) && HoldsOneMore(t, t', todo[n].target, todo[n].callerEventId)
    ensures HoldsList(todo, n + 1, t0, t')
  {
    forall g, x
      ensures InList(todo, n + 1, g, x) <==>
        InList(todo, n, g, x) || (todo[n].target == g && todo[n].callerEventId == x)
    {
    }
  }

  /** Completing what replay retains completes every recorded fire and adds nothing else. */
  lemma RetainedHold(h: History, t0: EventStoreState<CallerEvent>, t: EventStoreState<CallerEvent>)
    requires AtMostOneFire(h) && HoldsList(FiredInOrder(Replay(h)), |FiredInOrder(Replay(h))|, t0, t)
    ensures HoldsFires(h, t0, t)
  {
    var todo := FiredInOrder(Replay(h));
    RetainedFiresAreRecorded(h);
    forall g, x ensures InList(todo, |todo|, g, x) <==> Carried(h, |h|, g, x) {
      if InList(todo, |todo|, g, x) {
        var k :| 0 <= k < |todo| && todo[k].target == g && todo[k].callerEventId == x;
        assert todo[k] in todo && Recorded(h, todo[k]);
        var i :| 0 <= i < |h| && h[i].payload == Fired(todo[k]);
        assert Carries(h, i, g, x);
      }
      if Carried(h, |h|, g, x) {
        var i :| 0 <= i < |h| && Carries(h, i, g, x);
        assert Recorded(h, h[i].payload.fired);
        ReplayRetainsFires(h, h[i].payload.fired);
      }
    }
  }

  lemma HoldsFiresCompletes(h: History, t0: EventStoreState<CallerEvent>, t: EventStoreState<CallerEvent>)
    requires HoldsFires(h, t0, t)
    ensures Completed(h, t)
  {
    forall f | Recorded(h, f) ensures Holds(StreamOf(t, f.target), f.callerEventId) {
      var i :| 0 <= i < |h| && h[i].payload == Fired(f);
      assert Carries(h, i, f.target, f.callerEventId);
    }
  }

  // ---------------------------------------------------------------------
  // The second loop
  // ---------------------------------------------------------------------

  /** A fire of a schedule that is pending in `h`, due, and never fired there. */
  ghost predicate DueFire(h: History, e: SchedulerEvent, now: Timestamp) {
    && e.Fired?
    && DueUnfired(h, e.fired.scheduleId, now)
    && exists a :: PendingFrom(h, e.fired.scheduleId, a) && e.fired == FromArmed(a)
  }

  ghost predicate DueUnfired(h: History, id: ScheduleId, now: Timestamp) {
    DueAt(h, id, now) && !EverFired(h, id)
  }

  ghost predicate DueFires(h: History, h': History, now: Timestamp) {
    forall k :: |h| <= k < |h'| ==> DueFire(h, h'[k].payload, now)
  }

  lemma DueFiresStep(h0: History, h: History, e: Envelope<SchedulerEvent>, now: Timestamp)
    requires DueFires(h0, h, now) && DueFire(h0, e.payload, now)
    ensures DueFires(h0, h + [e], now)
  {
    forall k | |h0| <= k <= |h| ensures DueFire(h0, (h + [e])[k].payload, now) {
      assert k < |h| ==> (h + [e])[k] == h[k];
    }
  }

  /** Where the second loop stands after `count` fires that wrote `grown` caller events. */
  ghost predicate Progress(h0: History, h: History, t0: EventStoreState<CallerEvent>, t: EventStoreState<CallerEvent>,
                           now: Timestamp, count: int, grown: int) {
    && HoldsFires(h, t0, t) && DueFires(h0, h, now) && count == |h| - |h0| && grown <= count
    && (grown == count <==> FreshFires(h, |h0|, t0))
  }

  lemma ProgressMeans(h0: History, h: History, t0: EventStoreState<CallerEvent>, t: EventStoreState<CallerEvent>,
                      now: Timestamp, count: int, grown: int)
    requires Progress(h0, h, t0, t, now, count, grown)
    ensures HoldsFires(h, t0, t) && DueFires(h0, h, now) && count == |h| - |h0| && grown <= count
    ensures grown == count <==> FreshFires(h, |h0|, t0)
  {
  }

  lemma ProgressStep(h0: History, h: History, e: Envelope<SchedulerEvent>, t0: EventStoreState<CallerEvent>,
                     t: EventStoreState<CallerEvent>, t': EventStoreState<CallerEvent>, now: Timestamp, count: int,
                     grown: int)
    requires Progress(h0, h, t0, t, now, count, grown) && |h0| <= |h| && DueFire(h0, e.payload, now)
    requires HoldsOneMore(t, t', e.payload.fired.target, e.payload.fired.callerEventId)
    ensures Progress(h0, h + [e], t0, t', now, count + 1,
                     grown + Missing(t, e.payload.fired))
  {
    FireStep(h, e, |h0|, t0, t, t');
    DueFiresStep(h0, h, e, now);
    hide HoldsFires;
    hide FreshFires;
    hide DueFires;
  }

  /** The first `n` of these schedules have fired. */
  ghost predicate AllFired(h: History, due: seq<ScheduleId>, n: nat) {
    forall k :: 0 <= k < n && k < |due| ==> EverFired(h, due[k])
  }

  lemma AllFiredStep(h: History, h': History, due: seq<ScheduleId>, n: nat)
    requires h <= h' && AllFired(h, due, n) && n < |due| && EverFired(h', due[n])
    ensures AllFired(h', due, n + 1)
  {
    forall k | 0 <= k < n ensures EverFired(h', due[k]) {
      EverFiredGrows(h, h', due[k]);
    }
  }

  lemma StartFiring(h: History, t0: EventStoreState<CallerEvent>, t: EventStoreState<CallerEvent>, now: Timestamp,
                    due: seq<ScheduleId>)
    requires HoldsFires(h, t0, t)
    ensures Progress(h, h, t0, t, now, 0, 0) && GrownBy(t, t, 0) && AllFired(h, due, 0) && OnlyFires(h, h)
  {
  }

  /** The caller event of a schedule pending in `h` can be written. */
  ghost predicate DueCompletable(decode: Decoder, busUp: bool, h: History, t: EventStoreState<CallerEvent>,
                                 id: ScheduleId, n: nat) {
    !EverFired(h, id) ==> forall a :: PendingFrom(h, id, a) ==> Completable(decode, busUp, t, FromArmed(a), n)
  }

  ghost predicate AllDueCompletable(decode: Decoder, busUp: bool, h: History, t: EventStoreState<CallerEvent>,
                                    due: seq<ScheduleId>, n: nat) {
    forall id :: id in due ==> DueCompletable(decode, busUp, h, t, id, n)
  }

  lemma NextDueIsCompletable(decode: Decoder, busUp: bool, h: History, t: EventStoreState<CallerEvent>,
                             t': EventStoreState<CallerEvent>, due: seq<ScheduleId>, i: nat)
    requires i < |due| && GrownBy(t, t', i)
    ensures AllDueCompletable(decode, busUp, h, t, due, |due|) ==> DueCompletable(decode, busUp, h, t', due[i], 1)
    ensures AllFired(h, due, |due|) ==> EverFired(h, due[i])
  {
    if AllDueCompletable(decode, busUp, h, t, due, |due|) {
      assert due[i] in due;
      forall a | !EverFired(h, due[i]) && PendingFrom(h, due[i], a)
        ensures Completable(decode, busUp, t', FromArmed(a), 1)
      {
        StaysCompletable(decode, busUp, t, t', FromArmed(a), |due|, i);
      }
    }
  }

  lemma DecidedIsCompletable(h0: History, h: History, id: ScheduleId, now: Timestamp, decode: Decoder, busUp: bool,
                             t: EventStoreState<CallerEvent>)
    requires OnlyFires(h0, h)
    ensures DueCompletable(decode, busUp, h0, t, id, 1) && Decide(h, id, now).Fire? ==>
      Completable(decode, busUp, t, Decide(h, id, now).fired, 1)
  {
    if Decide(h, id, now).Fire? {
      DecideMeans(h, id, now);
      var a :| PendingFrom(h, id, a) && a.fireAt <= now;
      PendingBefore(h0, h, id, a);
      assert !EverFired(h0, id);
    }
  }

  lemma FireGrows(s: EventStoreState<SchedulerEvent>, t: EventStoreState<CallerEvent>, schedule: ScheduleId,
                  now: Timestamp, decode: Decoder, factId: Uuid, eventId: Uuid)
    ensures GrownBy(t, FireEffect(s, t, schedule, now, decode, factId, eventId).1, 1)
  {
    match Decide(StreamOf(s, SINGLETON), schedule, now)
    case Fire(f) => CompleteGrows(t, f, decode(f), eventId);
    case _ =>
  }

  /** One when the caller event of the fire is not in its target. */
  ghost function Missing(t: EventStoreState<CallerEvent>, f: ScheduleFired): nat {
    if Holds(StreamOf(t, f.target), f.callerEventId) then 0 else 1
  }

  /** What is due carries caller event ids of its own: none is in its target already, carried by a
      recorded fire, or shared with another schedule that is due. */
  ghost predicate CleanlyDue(h: History, t: EventStoreState<CallerEvent>, now: Timestamp) {
    && (forall id, a :: DueUnfired(h, id, now) && PendingFrom(h, id, a) ==>
          !Holds(StreamOf(t, a.target), a.callerEventId) && !Carried(h, |h|, a.target, a.callerEventId))
    && (forall i, j, a, b | i != j && DueUnfired(h, i, now) && DueUnfired(h, j, now) ::
          PendingFrom(h, i, a) && PendingFrom(h, j, b) ==>
          a.target != b.target || a.callerEventId != b.callerEventId)
  }

  lemma DueListed(h: History, now: Timestamp)
    ensures forall id :: id in DueInOrder(Replay(h), now) <==> DueAt(h, id, now)
  {
    ReplayReads(h);
    var s := Replay(h);
    forall id ensures id in DueInOrder(s, now) <==> DueAt(h, id, now) {
      if id in DueInOrder(s, now) { assert PendingFrom(h, id, s.pending[id]); }
    }
  }

  /** Once everything due in `h` has fired, fires alone leave nothing due. */
  lemma NothingLeft(h: History, h': History, now: Timestamp)
    requires OnlyFires(h, h')
    requires AllFired(h', DueInOrder(Replay(h), now), |DueInOrder(Replay(h), now)|)
    ensures NothingDue(h', now) && forall id :: DueAt(h, id, now) ==> EverFired(h', id)
  {
    DueListed(h, now);
    forall id | DueAt(h, id, now) ensures EverFired(h', id) {
      assert id in DueInOrder(Replay(h), now);
    }
    forall id | DueAt(h', id, now) ensures EverFired(h', id) {
      var a :| PendingFrom(h', id, a) && a.fireAt <= now;
      PendingBefore(h, h', id, a);
      assert DueAt(h, id, now);
    }
  }

  lemma FirstFire(h: History, id: ScheduleId, now: Timestamp)
    requires Decide(h, id, now).Fire?
    ensures !EverFired(h, id) && Decide(h, id, now).fired.scheduleId == id
  {
    ReplayReads(h);
  }

  /** A schedule that was due at the start of recovery either fired since or can fire now. */
  lemma DueMeansFireOrTerminal(h0: History, h: History, id: ScheduleId, now: Timestamp)
    requires OnlyFires(h0, h) && DueAt(h0, id, now)
    ensures Decide(h, id, now).Fire? || EverFired(h, id)
    ensures Decide(h, id, now).Fire? || Decide(h, id, now).Terminal?
    ensures EverFired(h, id) ==> !Decide(h, id, now).Fire?
  {
    var a :| PendingFrom(h0, id, a) && a.fireAt <= now;
    PendingOrFired(h0, h, id, a);
    DecideMeans(h, id, now);
  }

  /** Two schedules that are due and share target and caller event id are not clean: the source counts
      the second one as completed although nothing is written for it. */
  lemma SharedCallerIdIsNotClean(h: History, i: ScheduleId, j: ScheduleId, a: ScheduleArmed, b: ScheduleArmed,
                                 t: EventStoreState<CallerEvent>, now: Timestamp)
    requires i != j && PendingFrom(h, i, a) && PendingFrom(h, j, b) && !EverFired(h, i) && !EverFired(h, j)
    requires a.fireAt <= now && b.fireAt <= now && a.target == b.target && a.callerEventId == b.callerEventId
    ensures !CleanlyDue(h, t, now)
  {
    assert DueUnfired(h, i, now) && DueUnfired(h, j, now);
  }

  /** For instance a stream that arms the same caller event under two ids: not clean, and yet a recovery
      of it succeeds when the target exists and the decoder answers. */
  lemma ArmedTwiceIsNotClean(h: History, a: ScheduleArmed, b: ScheduleArmed, t: EventStoreState<CallerEvent>,
                             decode: Decoder)
    requires |h| == 2 && h[0].payload == Armed(a) && h[1].payload == Armed(b) && b == a.(scheduleId := a.scheduleId + 1)
    requires 0 < |StreamOf(t, a.target)| <= 2 && forall f :: decode(f).Some?
    ensures !CleanlyDue(h, t, a.fireAt) && Recoverable(decode, true, h, t, a.fireAt)
  {
    hide CleanlyDue;
    hide Recoverable;
    assert LastAbout(h, a.scheduleId, 0) && LastAbout(h, b.scheduleId, 1);
    SharedCallerIdIsNotClean(h, a.scheduleId, b.scheduleId, a, b, t, a.fireAt);
    ArmedTwiceIsRecoverable(h, a, b, t, decode);
  }

  lemma ArmedTwiceIsRecoverable(h: History, a: ScheduleArmed, b: ScheduleArmed, t: EventStoreState<CallerEvent>,
                                decode: Decoder)
    requires |h| == 2 && h[0].payload == Armed(a) && h[1].payload == Armed(b) && b == a.(scheduleId := a.scheduleId + 1)
    requires 0 < |StreamOf(t, a.target)| <= 2 && forall f :: decode(f).Some?
    ensures Recoverable(decode, true, h, t, a.fireAt)
  {
    hide Replay;
    hide FiredInOrder;
    hide DueInOrder;
    var todo, due := FiredInOrder(Replay(h)), DueInOrder(Replay(h), a.fireAt);
    RetainedAreRecorded(h);
    assert todo == [];
    AtMostTwoDue(h, a, b);
    forall id, c | PendingFrom(h, id, c) ensures c.target == a.target {
    }
    forall f: ScheduleFired | f.target == a.target ensures Completable(decode, true, t, f, |due|) {
    }
  }

  lemma RetainedAreRecorded(h: History)
    ensures FiredInOrder(Replay(h)) != [] ==> exists f :: Recorded(h, f)
  {
    RetainedFiresAreRecorded(h);
    var todo := FiredInOrder(Replay(h));
    if todo != [] {
      assert todo[0] in todo;
    }
  }

  lemma AtMostTwoDue(h: History, a: ScheduleArmed, b: ScheduleArmed)
    requires |h| == 2 && h[0].payload == Armed(a) && h[1].payload == Armed(b) && b == a.(scheduleId := a.scheduleId + 1)
    ensures |DueInOrder(Replay(h), a.fireAt)| <= 2
  {
    var due := DueInOrder(Replay(h), a.fireAt);
    DueListed(h, a.fireAt);
    forall id | id in due ensures id == a.scheduleId || id == b.scheduleId {
      assert DueAt(h, id, a.fireAt);
    }
    AscendingSpan(due);
  }

  lemma AscendingSpan(ids: seq<ScheduleId>)
    requires Ascending(ids)
    ensures |ids| > 2 ==> ids[0] in ids && ids[2] in ids && ids[0] + 2 <= ids[2]
  {
    assert |ids| > 2 ==> ids[0] < ids[1] < ids[2];
  }

  /** Over fresh stores such a recovery reports more completions than it wrote events. */
  method RecoverArmedTwice(decode: Decoder, a: ScheduleArmed) returns (report: RecoveryReport, written: nat)
    requires a.target == 1 && forall f :: decode(f).Some?
    ensures written < report.completed
  {
    var schedulerStore := new InMemoryEventStore<SchedulerEvent>();
    var targetStore := new InMemoryEventStore<CallerEvent>();
    var event := CallerEvent(a.callerEventId + 1, []);
    var created := targetStore.Create([event], a.correlation);
    assert |StreamOf(targetStore.state, 1)| == 1;
    var driver := new DurableScheduler(schedulerStore, targetStore, decode, true);
    var b := a.(scheduleId := a.scheduleId + 1);
    var first := driver.Arm(a);
    var second := driver.Arm(b);
    ArmedTwiceIsNotClean(driver.History(), a, b, targetStore.state, decode);
    var recovered := driver.RecoverDue(a.fireAt);
    report, written := recovered.value, |driver.published|;
  }

  /** After one turn the schedule has fired, with the data it was armed with at the start. */
  lemma FiredNow(h0: History, h: History, h': History, id: ScheduleId, now: Timestamp)
    requires OnlyFires(h0, h) && OnlyFires(h, h') && DueAt(h0, id, now)
    requires Decide(h, id, now).Fire? || (EverFired(h, id) && h' == h)
    requires Decide(h, id, now).Fire? ==> |h'| == |h| + 1 && h'[|h|].payload == Fired(Decide(h, id, now).fired)
    ensures EverFired(h', id)
    ensures Decide(h, id, now).Fire? ==> DueFire(h0, h'[|h|].payload, now)
  {
    if Decide(h, id, now).Fire? {
      DecideMeans(h, id, now);
      FirstFire(h, id, now);
      assert Subject(h'[|h|].payload) == id;
      var a :| PendingFrom(h, id, a) && a.fireAt <= now;
      PendingBefore(h0, h, id, a);
      if EverFired(h0, id) {
        EverFiredGrows(h0, h, id);
      }
    }
  }

  /** A schedule that was due and had never fired has its fire in the tail, with its own data. */
  lemma FireOf(h: History, h': History, now: Timestamp, id: ScheduleId, a: ScheduleArmed) returns (k: nat)
    requires OnlyFires(h, h') && DueFires(h, h', now) && EverFired(h', id) && DueUnfired(h, id, now)
    requires PendingFrom(h, id, a)
    ensures |h| <= k < |h'| && h'[k].payload == Fired(FromArmed(a)) && a.scheduleId == id
  {
    assert forall i :: 0 <= i < |h| ==> h[i] == h'[i];
    k :| 0 <= k < |h'| && h'[k].payload.Fired? && Subject(h'[k].payload) == id;
    assert DueFire(h, h'[k].payload, now);
  }

  lemma CleanIsFresh(h: History, h': History, t: EventStoreState<CallerEvent>, now: Timestamp, k: nat)
    requires OnlyFires(h, h') && AtMostOneFire(h') && DueFires(h, h', now) && |h| <= k < |h'| && CleanlyDue(h, t, now)
    ensures FreshFire(h', k, t)
  {
    assert DueFire(h, h'[k].payload, now);
    var f := h'[k].payload.fired;
    var a :| PendingFrom(h, f.scheduleId, a) && f == FromArmed(a);
    forall j | 0 <= j < k ensures !Carries(h', j, f.target, f.callerEventId) {
      if j < |h| {
        assert h[j] == h'[j];
        assert !Carries(h, j, f.target, f.callerEventId);
      } else {
        assert DueFire(h, h'[j].payload, now);
        var e := h'[j].payload.fired;
        var b :| PendingFrom(h, e.scheduleId, b) && e == FromArmed(b);
        assert Subject(h'[j].payload) != Subject(h'[k].payload);
      }
    }
  }

  lemma FreshIsClean(h: History, h': History, t: EventStoreState<CallerEvent>, now: Timestamp)
    requires OnlyFires(h, h') && DueFires(h, h', now) && FreshFires(h', |h|, t)
    requires forall id :: DueAt(h, id, now) ==> EverFired(h', id)
    ensures CleanlyDue(h, t, now)
  {
    forall id, a | DueUnfired(h, id, now) && PendingFrom(h, id, a)
      ensures !Holds(StreamOf(t, a.target), a.callerEventId) && !Carried(h, |h|, a.target, a.callerEventId)
    {
      var k := FireOf(h, h', now, id, a);
      assert FreshFire(h', k, t);
      forall j | 0 <= j < |h| ensures !Carries(h, j, a.target, a.callerEventId) {
        assert h[j] == h'[j];
        assert !Carries(h', j, a.target, a.callerEventId);
      }
    }
    forall i, j, a, b |
      && i != j
      && DueUnfired(h, i, now)
      && DueUnfired(h, j, now)
      && PendingFrom(h, i, a)
      && PendingFrom(h, j, b)
      ensures a.target != b.target || a.callerEventId != b.callerEventId
    {
      var k := FireOf(h, h', now, i, a);
      var l := FireOf(h, h', now, j, b);
      assert FreshFire(h', k, t) && FreshFire(h', l, t);
      assert Carries(h', k, a.target, a.callerEventId) && Carries(h', l, b.target, b.callerEventId);
    }
  }

  /** The fires of a recovery are exactly the schedules that were due and had never fired, so they are
      all fresh exactly when what was due was clean. */
  lemma FreshExactlyWhenClean(h: History, h': History, t: EventStoreState<CallerEvent>, now: Timestamp)
    requires OnlyFires(h, h') && AtMostOneFire(h') && DueFires(h, h', now)
    requires forall id :: DueAt(h, id, now) ==> EverFired(h', id)
    ensures FreshFires(h', |h|, t) <==> CleanlyDue(h, t, now)
  {
    if CleanlyDue(h, t, now) {
      forall k | |h| <= k < |h'| ensures FreshFire(h', k, t) {
        CleanIsFresh(h, h', t, now, k);
      }
    }
    if FreshFires(h', |h|, t) {
      FreshIsClean(h, h', t, now);
    }
  }

  // ---------------------------------------------------------------------
  // Recovery can start from whatever a run of drivers leaves behind
  // ---------------------------------------------------------------------

  function IdsOf(a: Action): seq<Uuid> {
    match a
    case AppendScheduler(_, id) => [id]
    case AppendFired(_, id) => [id]
    case AppendTarget(_, id) => [id]
    case ForeignCreate(_, _, ids) => ids
    case ForeignAppend(_, _, _, _, ids) => ids
    case _ => []
  }

  /** The event ids of an action are new: drawn from `first` on and below `next`. */
  ghost predicate Draws(a: Action, first: Uuid, next: Uuid) {
    IdsOf(a) == Draw(first, |IdsOf(a)|) && first + |IdsOf(a)| <= next
  }

  lemma ValidGrows<E>(st: EventStoreState<E>, bound: Uuid, next: Uuid)
    requires ValidState(st, bound) && bound <= next
    ensures ValidState(st, next)
  {
  }

  lemma ActionKeepsValid(w: World, a: Action, first: Uuid, next: Uuid)
    requires Enabled(w, a) && Draws(a, first, next) && ValidState(w.sched, first) && ValidState(w.target, first)
    ensures ValidState(Do(w, a).sched, next) && ValidState(Do(w, a).target, next)
  {
    ValidGrows(w.sched, first, next);
    ValidGrows(w.target, first, next);
    hide ValidState;
    hide Draw;
    match a
    case AppendScheduler(t, _) =>
      var pc := PcOf(w, t);
      if pc.loaded == [] {
        CreateKeepsValid(w.sched, [pc.fact], pc.ctx, first);
      } else {
        AppendKeepsValid(w.sched, SINGLETON, LastSequence(pc.loaded), [pc.fact], pc.ctx, first);
      }
      ValidGrows(Do(w, a).sched, first + 1, next);
    case AppendFired(t, _) =>
      var pc := PcOf(w, t);
      if pc.loaded != [] {
        AppendKeepsValid(w.sched, SINGLETON, LastSequence(pc.loaded), [Fired(pc.fired)], pc.fired.correlation, first);
        var st := Append(w.sched, SINGLETON, LastSequence(pc.loaded), [Fired(pc.fired)], pc.fired.correlation,
                         IdsOf(a)).0;
        ValidGrows(st, first + 1, next);
      }
    case AppendTarget(t, _) =>
      var pc := PcOf(w, t);
      if pc.found != [] {
        AppendKeepsValid(w.target, pc.fired.target, LastSequence(pc.found), [pc.event], pc.fired.correlation, first);
        var st := Append(w.target, pc.fired.target, LastSequence(pc.found), [pc.event], pc.fired.correlation,
                         IdsOf(a)).0;
        ValidGrows(st, first + 1, next);
      }
    case ForeignCreate(events, ctx, ids) =>
      CreateKeepsValid(w.target, events, ctx, first);
      ValidGrows(Do(w, a).target, first + |ids|, next);
    case ForeignAppend(target, expected, events, ctx, ids) =>
      AppendKeepsValid(w.target, target, expected, events, ctx, first);
      ValidGrows(Do(w, a).target, first + |ids|, next);
    case _ =>
  }

  /** Every state of every run with new event ids, crashes included, is one a driver may be built over:
      both stores are valid and no schedule has fired twice. */
  lemma {:induction false} CrashedStatesAreRecoverable(trace: seq<World>, actions: seq<Action>, bounds: seq<Uuid>,
                                                       n: nat)
    requires SchedulerProtocol.IsRun(trace, actions) && n < |trace| == |bounds|
    requires 0 < bounds[0] && ValidState(trace[0].target, bounds[0])
    requires forall i :: 0 <= i < |actions| ==> Draws(actions[i], bounds[i], bounds[i + 1])
    ensures ValidState(trace[n].sched, bounds[n]) && ValidState(trace[n].target, bounds[n])
    ensures AtMostOneFire(StreamOf(trace[n].sched, SINGLETON))
  {
    FiresAreUnique(trace, actions, n);
    if n > 0 {
      CrashedStatesAreRecoverable(trace, actions, bounds, n - 1);
      ActionKeepsValid(trace[n - 1], actions[n - 1], bounds[n - 1], bounds[n]);
    }
  }

  // ---------------------------------------------------------------------
  // One driver alone
  // ---------------------------------------------------------------------

  /** The completing half of a driver's steps with nobody in between. */
  ghost function CompleteAlone(w: World, t: Tid, decode: Decoder, id: Uuid): World
    requires PcOf(w, t).Completing?
  {
    var loaded := Do(w, LoadTarget(t, decode(PcOf(w, t).fired)));
    if !PcOf(loaded, t).Writing? then loaded else
    var written := Do(loaded, AppendTarget(t, id));
    if PcOf(written, t).Publishing? then Do(written, Publish(t, true)) else written
  }

  /** All the steps of firing one schedule with nobody in between. */
  ghost function FireAlone(w: World, t: Tid, schedule: ScheduleId, now: Timestamp, decode: Decoder, factId: Uuid,
                           eventId: Uuid): World
    requires PcOf(w, t).Idle?
  {
    var decided := Do(w, StartFire(t, schedule, now));
    if !PcOf(decided, t).Firing? then decided else
    var recorded := Do(decided, AppendFired(t, factId));
    if PcOf(recorded, t).Completing? then CompleteAlone(recorded, t, decode, eventId) else recorded
  }

  lemma CompleteAloneIsCompleteFired(w: World, t: Tid, decode: Decoder, id: Uuid)
    requires PcOf(w, t).Completing? && PcOf(w, t).cont == Return && CanLoad(w.target, PcOf(w, t).fired.target)
    ensures var w' := CompleteAlone(w, t, decode, id); var f := PcOf(w, t).fired;
      w'.sched == w.sched && w'.target == CompleteEffect(w.target, f, decode(f), id) && PcOf(w', t).Idle?
  {
    hide Holds;
    hide CanLoad;
  }

  /** The steps of the interleaved model, run by one driver alone, write exactly what `FireSchedule` and
      `CompleteFired` write. */
  lemma FireAloneIsFireSchedule(w: World, t: Tid, schedule: ScheduleId, now: Timestamp, decode: Decoder, factId: Uuid,
                                eventId: Uuid)
    requires PcOf(w, t).Idle? && CanLoad(w.sched, SINGLETON) && forall g :: CanLoad(w.target, g)
    ensures var w' := FireAlone(w, t, schedule, now, decode, factId, eventId);
      && (w'.sched, w'.target) == FireEffect(w.sched, w.target, schedule, now, decode, factId, eventId)
      && PcOf(w', t).Idle?
  {
    var decided := Do(w, StartFire(t, schedule, now));
    if PcOf(decided, t).Firing? {
      var recorded := Do(decided, AppendFired(t, factId));
      if PcOf(recorded, t).Completing? {
        CompleteAloneIsCompleteFired(recorded, t, decode, eventId);
      }
    }
    hide CompleteAlone;
    hide CompleteEffect;
    hide Append;
    hide CanLoad;
  }
}
