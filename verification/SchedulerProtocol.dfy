/** Any number of durable-scheduler drivers over two shared event stores, interleaved at every
    store call, with crashes (`scheduler.rs` of cherry-pit-app). One action is one store call; a
    driver remembers what its last load returned, however stale that has become. */
module SchedulerProtocol {
  import opened Prelude
  import opened EventStore
  import opened SchedulerState

  /** A domain event of the target aggregate; `scheduledEventId` is what `ScheduledDomainEvent` exposes. */
  datatype CallerEvent = CallerEvent(scheduledEventId: Uuid, body: seq<Byte>)

  type Tid = nat

  /** What a driver does after completing one fired schedule. */
  datatype Cont = Return | Resume(now: Timestamp, fired: seq<ScheduleFired>, due: seq<ScheduleId>)

  datatype Pc =
    | Idle
    | Appending(fact: SchedulerEvent, ctx: CorrelationContext, loaded: History)
    | Firing(fired: ScheduleFired, now: Timestamp, loaded: History, cont: Cont)
    | Completing(fired: ScheduleFired, cont: Cont)
    | Writing(fired: ScheduleFired, event: CallerEvent, found: seq<Envelope<CallerEvent>>, cont: Cont)
    | Publishing(cont: Cont)
    | Recovering(now: Timestamp, todo: seq<ScheduleFired>, due: seq<ScheduleId>)

  /** Both stores, the drivers, and two history variables: the instant given to the call that
      recorded each fire, and the positions of target events written by drivers. */
  datatype World = World(
    sched: EventStoreState<SchedulerEvent>,
    target: EventStoreState<CallerEvent>,
    drivers: map<Tid, Pc>,
    nows: map<nat, Timestamp>,
    written: set<(AggregateId, nat)>)

  const SINGLETON: AggregateId := 1

  function Scheduler(w: World): History {
    StreamOf(w.sched, SINGLETON)
  }

  function PcOf(w: World, t: Tid): Pc {
    if t in w.drivers then w.drivers[t] else Idle
  }

  function Goto(w: World, t: Tid, pc: Pc): World {
    w.(drivers := w.drivers[t := pc])
  }

  function Continue(cont: Cont): Pc {
    match cont
    case Return => Idle
    case Resume(now, fired, due) => Recovering(now, fired, due)
  }

  datatype Action =
    | StartAppend(t: Tid, event: SchedulerEvent, ctx: CorrelationContext)
    | AppendScheduler(t: Tid, id: Uuid)
    | StartFire(t: Tid, schedule: ScheduleId, now: Timestamp)
    | AppendFired(t: Tid, id: Uuid)
    | LoadTarget(t: Tid, decoded: Option<CallerEvent>)
    | AppendTarget(t: Tid, id: Uuid)
    | Publish(t: Tid, delivered: bool)
    | StartRecover(t: Tid, now: Timestamp)
    | RecoverNext(t: Tid)
    | Crash(t: Tid)
    | ForeignCreate(events: seq<CallerEvent>, ctx: CorrelationContext, ids: seq<Uuid>)
    | ForeignAppend(target: AggregateId, expected: NonZeroU64, events: seq<CallerEvent>, ctx: CorrelationContext,
                    ids: seq<Uuid>)

  ghost predicate CanLoad<E>(st: EventStoreState<E>, id: AggregateId) {
    ValidStream(id, StreamOf(st, id))
  }

  /** Second half of a fire: replay what was loaded and either stop or go on to the append. */
  function AfterDecision(h: History, schedule: ScheduleId, now: Timestamp, cont: Cont): Pc {
    match Decide(h, schedule, now)
    case Fire(f) => Firing(f, now, h, cont)
    case _ => Continue(cont)
  }

  ghost predicate Enabled(w: World, a: Action) {
    match a
    case StartAppend(t, event, _) => PcOf(w, t).Idle? && !event.Fired?
    case AppendScheduler(t, _) => PcOf(w, t).Appending?
    case StartFire(t, _, _) => PcOf(w, t).Idle?
    case AppendFired(t, _) => PcOf(w, t).Firing?
    case LoadTarget(t, decoded) =>
      && PcOf(w, t).Completing?
      && (decoded.Some? ==> decoded.value.scheduledEventId == PcOf(w, t).fired.callerEventId)
    case AppendTarget(t, _) => PcOf(w, t).Writing?
    case Publish(t, _) => PcOf(w, t).Publishing?
    case StartRecover(t, now) => PcOf(w, t).Idle?
    case RecoverNext(t) => PcOf(w, t).Recovering?
    case Crash(_) => true
    case ForeignCreate(events, _, ids) => |ids| == |events|
    case ForeignAppend(_, _, events, _, ids) => |ids| == |events|
  }

  ghost function Do(w: World, a: Action): World
    requires Enabled(w, a)
  {
    match a
    case StartAppend(t, event, ctx) =>
      if CanLoad(w.sched, SINGLETON) then Goto(w, t, Appending(event, ctx, Scheduler(w))) else w
    case AppendScheduler(t, id) => DoAppendScheduler(w, t, id)
    case StartFire(t, schedule, now) =>
      if CanLoad(w.sched, SINGLETON) then Goto(w, t, AfterDecision(Scheduler(w), schedule, now, Return)) else w
    case AppendFired(t, id) => DoAppendFired(w, t, id)
    case LoadTarget(t, decoded) => DoLoadTarget(w, t, decoded)
    case AppendTarget(t, id) => DoAppendTarget(w, t, id)
    case Publish(t, delivered) => Goto(w, t, if delivered then Continue(PcOf(w, t).cont) else Idle)
    case StartRecover(t, now) =>
      var state := Replay(Scheduler(w));
      if !CanLoad(w.sched, SINGLETON) then w
      else Goto(w, t, Recovering(now, FiredInOrder(state), DueInOrder(state, now)))
    case RecoverNext(t) => DoRecoverNext(w, t)
    case Crash(t) => Goto(w, t, Idle)
    case ForeignCreate(events, ctx, ids) => w.(target := Create(w.target, events, ctx, ids).0)
    case ForeignAppend(target, expected, events, ctx, ids) =>
      w.(target := Append(w.target, target, expected, events, ctx, ids).0)
  }

  /** The write of `append_scheduler`: append after the loaded history, or create when it was empty. */
  ghost function DoAppendScheduler(w: World, t: Tid, id: Uuid): World
    requires PcOf(w, t).Appending?
  {
    var pc := PcOf(w, t);
    var st := if pc.loaded == [] then Create(w.sched, [pc.fact], pc.ctx, [id]).0
              else Append(w.sched, SINGLETON, LastSequence(pc.loaded), [pc.fact], pc.ctx, [id]).0;
    Goto(w.(sched := st), t, Idle)
  }

  ghost function DoAppendFired(w: World, t: Tid, id: Uuid): World
    requires PcOf(w, t).Firing?
  {
    var pc := PcOf(w, t);
    if pc.loaded == [] then Goto(w, t, Idle) else
    var (st, r) := Append(w.sched, SINGLETON, LastSequence(pc.loaded), [Fired(pc.fired)], pc.fired.correlation, [id]);
    if r.Ok? then
      Goto(w.(sched := st, nows := w.nows[|Scheduler(w)| := pc.now]), t, Completing(pc.fired, pc.cont))
    else
      Goto(w, t, Idle)
  }

  predicate Holds(stream: seq<Envelope<CallerEvent>>, id: Uuid) {
    exists i :: 0 <= i < |stream| && stream[i].payload.scheduledEventId == id
  }

  ghost function DoLoadTarget(w: World, t: Tid, decoded: Option<CallerEvent>): World
    requires PcOf(w, t).Completing?
  {
    var pc := PcOf(w, t);
    var found := StreamOf(w.target, pc.fired.target);
    if !CanLoad(w.target, pc.fired.target) then Goto(w, t, Idle)
    else if Holds(found, pc.fired.callerEventId) then Goto(w, t, Continue(pc.cont))
    else if decoded.None? || found == [] then Goto(w, t, Idle)
    else Goto(w, t, Writing(pc.fired, decoded.value, found, pc.cont))
  }

  ghost function DoAppendTarget(w: World, t: Tid, id: Uuid): World
    requires PcOf(w, t).Writing?
  {
    var pc := PcOf(w, t);
    if pc.found == [] then Goto(w, t, Idle) else
    var (st, r) := Append(w.target, pc.fired.target, LastSequence(pc.found), [pc.event], pc.fired.correlation, [id]);
    if r.Ok? then
      Goto(w.(target := st, written := w.written + {(pc.fired.target, |StreamOf(w.target, pc.fired.target)|)}), t,
           Publishing(pc.cont))
    else
      Goto(w, t, Idle)
  }

  /** One turn of the two loops of `recover_due`. */
  ghost function DoRecoverNext(w: World, t: Tid): World
    requires PcOf(w, t).Recovering?
  {
    var pc := PcOf(w, t);
    if pc.todo != [] then
      Goto(w, t, Completing(pc.todo[0], Resume(pc.now, pc.todo[1..], pc.due)))
    else if pc.due != [] then
      if CanLoad(w.sched, SINGLETON) then
        Goto(w, t, AfterDecision(Scheduler(w), pc.due[0], pc.now, Resume(pc.now, [], pc.due[1..])))
      else
        Goto(w, t, Idle)
    else
      Goto(w, t, Idle)
  }

  ghost predicate Init(w: World) {
    && w.sched == EventStoreState(map[], 1)
    && Contiguous(w.target)
    && w.drivers == map[] && w.nows == map[] && w.written == {}
  }

  ghost predicate IsRun(trace: seq<World>, actions: seq<Action>) {
    && |trace| == |actions| + 1
    && Init(trace[0])
    && forall i :: 0 <= i < |actions| ==> Enabled(trace[i], actions[i]) && trace[i + 1] == Do(trace[i], actions[i])
  }

  // ---------------------------------------------------------------------
  // The invariant
  // ---------------------------------------------------------------------

  /** The fire is recorded in the scheduler stream. */
  ghost predicate Recorded(h: History, f: ScheduleFired) {
    exists i :: 0 <= i < |h| && h[i].payload == Fired(f)
  }

  ghost predicate ContOk(h: History, cont: Cont) {
    cont.Resume? ==> forall f :: f in cont.fired ==> Recorded(h, f)
  }

  /** What a driver at `pc` relies on, given the current streams. */
  ghost predicate PcOk(w: World, pc: Pc) {
    var h := Scheduler(w);
    match pc
    case Idle => true
    case Appending(event, _, loaded) => loaded <= h && !event.Fired?
    case Firing(f, now, loaded, cont) =>
      && loaded <= h && loaded != [] && Decide(loaded, f.scheduleId, now) == Fire(f) && ContOk(h, cont)
    case Completing(f, cont) => Recorded(h, f) && ContOk(h, cont)
    case Writing(f, event, found, cont) =>
      && Recorded(h, f) && ContOk(h, cont)
      && found <= StreamOf(w.target, f.target) && found != []
      && event.scheduledEventId == f.callerEventId && !Holds(found, f.callerEventId)
    case Publishing(cont) => ContOk(h, cont)
    case Recovering(_, todo, _) => forall f :: f in todo ==> Recorded(h, f)
  }

  /** A driver-written target event is the first in its stream with its caller identity, and the
      fire it completes was recorded before it. */
  ghost predicate WrittenOk(w: World, at: (AggregateId, nat)) {
    var s := StreamOf(w.target, at.0);
    && at.1 < |s|
    && !Holds(s[..at.1], s[at.1].payload.scheduledEventId)
    && exists f :: Recorded(Scheduler(w), f) && f.target == at.0 && f.callerEventId == s[at.1].payload.scheduledEventId
  }

  ghost predicate Inv(w: World) {
    && Contiguous(w.sched) && Contiguous(w.target)
    && AllLegitimate(Scheduler(w), w.nows)
    && (forall t :: t in w.drivers ==> PcOk(w, w.drivers[t]))
    && (forall at :: at in w.written ==> WrittenOk(w, at))
  }

  // ---------------------------------------------------------------------
  // Every action keeps the invariant
  // ---------------------------------------------------------------------

  /** Stream growth elsewhere never invalidates what a driver or a written event relies on. */
  lemma GrowthKeeps(w: World, w': World)
    requires Inv(w)
    requires Scheduler(w) <= Scheduler(w') && Extends(w.target, w'.target)
    ensures forall pc :: PcOk(w, pc) ==> PcOk(w', pc)
    ensures forall at: (AggregateId, nat) :: WrittenOk(w, at) ==> WrittenOk(w', at)
  {
  }

  lemma ContGrows(h: History, h': History, cont: Cont)
    requires h <= h' && ContOk(h, cont)
    ensures ContOk(h', cont)
  {
  }

  /** Moving one driver to a justified position, stores untouched. */
  lemma GotoKeeps(w: World, t: Tid, pc: Pc)
    requires Inv(w) && PcOk(w, pc)
    ensures Inv(Goto(w, t, pc))
  {
  }

  lemma DecisionOk(w: World, schedule: ScheduleId, now: Timestamp, cont: Cont)
    requires Inv(w) && ContOk(Scheduler(w), cont)
    ensures PcOk(w, AfterDecision(Scheduler(w), schedule, now, cont))
  {
    var h := Scheduler(w);
    ReplayReads(h);
    match Decide(h, schedule, now)
    case Fire(f) => assert f.scheduleId == schedule;
    case _ =>
  }

  lemma ContinueOk(w: World, cont: Cont)
    requires ContOk(Scheduler(w), cont)
    ensures PcOk(w, Continue(cont))
  {
  }

  lemma KeepsAppendScheduler(w: World, t: Tid, id: Uuid)
    requires Inv(w) && PcOf(w, t).Appending?
    ensures Inv(DoAppendScheduler(w, t, id))
  {
    var pc := PcOf(w, t);
    assert PcOk(w, pc);
    var h := Scheduler(w);
    var w' := w.(sched := DoAppendScheduler(w, t, id).sched);
    if pc.loaded == [] {
      CreateKeeps(w.sched, [pc.fact], pc.ctx, [id]);
    } else {
      AppendKeeps(w.sched, SINGLETON, LastSequence(pc.loaded), [pc.fact], pc.ctx, [id]);
    }
    assert Scheduler(w') != h ==>
      |Scheduler(w')| == |h| + 1 && h <= Scheduler(w') && Scheduler(w')[|h|].payload == pc.fact;
    if Scheduler(w') != h {
      assert Scheduler(w') == h + [Scheduler(w')[|h|]];
      NonFireKeepsLegitimacy(h, Scheduler(w')[|h|], w.nows);
    }
    GrowthKeeps(w, w');
    assert Inv(w');
    GotoKeeps(w', t, Idle);
  }

  lemma KeepsAppendFired(w: World, t: Tid, id: Uuid)
    requires Inv(w) && PcOf(w, t).Firing?
    ensures Inv(DoAppendFired(w, t, id))
  {
    var pc := PcOf(w, t);
    assert PcOk(w, pc);
    var h := Scheduler(w);
    var expected := LastSequence(pc.loaded);
    var (st, r) := Append(w.sched, SINGLETON, expected, [Fired(pc.fired)], pc.fired.correlation, [id]);
    AppendKeeps(w.sched, SINGLETON, expected, [Fired(pc.fired)], pc.fired.correlation, [id]);
    if r.Ok? {
      assert pc.loaded == h;
      var e := st.streams[SINGLETON][|h|];
      assert st.streams[SINGLETON] == h + [e] && e.payload == Fired(pc.fired);
      DecidedFireIsLegitimate(h, e, pc.fired.scheduleId, pc.now, w.nows);
      var w' := w.(sched := st, nows := w.nows[|h| := pc.now]);
      assert Scheduler(w') == h + [e];
      GrowthKeeps(w, w');
      assert Inv(w');
      ContGrows(h, h + [e], pc.cont);
      assert Recorded(h + [e], pc.fired) by { assert (h + [e])[|h|] == e; }
      GotoKeeps(w', t, Completing(pc.fired, pc.cont));
    } else {
      GotoKeeps(w, t, Idle);
    }
  }

  lemma KeepsLoadTarget(w: World, t: Tid, decoded: Option<CallerEvent>)
    requires Inv(w) && Enabled(w, LoadTarget(t, decoded))
    ensures Inv(DoLoadTarget(w, t, decoded))
  {
    var pc := PcOf(w, t);
    assert PcOk(w, pc);
    ContinueOk(w, pc.cont);
    GotoKeeps(w, t, Idle);
    GotoKeeps(w, t, Continue(pc.cont));
    var found := StreamOf(w.target, pc.fired.target);
    if !Holds(found, pc.fired.callerEventId) && decoded.Some? && found != [] {
      GotoKeeps(w, t, Writing(pc.fired, decoded.value, found, pc.cont));
    }
  }

  lemma KeepsAppendTarget(w: World, t: Tid, id: Uuid)
    requires Inv(w) && PcOf(w, t).Writing?
    ensures Inv(DoAppendTarget(w, t, id))
  {
    var pc := PcOf(w, t);
    assert PcOk(w, pc);
    var s := StreamOf(w.target, pc.fired.target);
    var expected := LastSequence(pc.found);
    var (st, r) := Append(w.target, pc.fired.target, expected, [pc.event], pc.fired.correlation, [id]);
    AppendKeeps(w.target, pc.fired.target, expected, [pc.event], pc.fired.correlation, [id]);
    if r.Ok? {
      assert pc.found == s;
      var at := (pc.fired.target, |s|);
      var w1 := w.(target := st);
      GrowthKeeps(w, w1);
      assert Scheduler(w1) == Scheduler(w);
      assert StreamOf(st, at.0)[..at.1] == s;
      assert WrittenOk(w1, at);
      var w2 := w1.(written := w.written + {at});
      assert forall a: (AggregateId, nat) :: WrittenOk(w1, a) ==> WrittenOk(w2, a);
      assert forall p :: PcOk(w1, p) ==> PcOk(w2, p);
      assert Inv(w2);
      GotoKeeps(w2, t, Publishing(pc.cont));
    } else {
      GotoKeeps(w, t, Idle);
    }
  }

  lemma KeepsRecoverNext(w: World, t: Tid)
    requires Inv(w) && PcOf(w, t).Recovering?
    ensures Inv(DoRecoverNext(w, t))
  {
    var pc := PcOf(w, t);
    assert PcOk(w, pc);
    if pc.todo != [] {
      assert pc.todo[0] in pc.todo;
      GotoKeeps(w, t, Completing(pc.todo[0], Resume(pc.now, pc.todo[1..], pc.due)));
    } else {
      GotoKeeps(w, t, Idle);
      if pc.due != [] {
        DecisionOk(w, pc.due[0], pc.now, Resume(pc.now, [], pc.due[1..]));
        GotoKeeps(w, t, AfterDecision(Scheduler(w), pc.due[0], pc.now, Resume(pc.now, [], pc.due[1..])));
      }
    }
  }

  lemma RetainedFiresAreRecorded(h: History)
    ensures forall f :: f in FiredInOrder(Replay(h)) ==> Recorded(h, f)
  {
    ReplayReads(h);
    var s := Replay(h);
    forall f | f in FiredInOrder(s) ensures Recorded(h, f) {
      var id :| id in s.fired && s.fired[id] == f;
      assert FiredLast(h, id, f);
    }
  }

  lemma KeepsStartFire(w: World, t: Tid, schedule: ScheduleId, now: Timestamp)
    requires Inv(w)
    ensures Inv(Goto(w, t, AfterDecision(Scheduler(w), schedule, now, Return)))
  {
    DecisionOk(w, schedule, now, Return);
    GotoKeeps(w, t, AfterDecision(Scheduler(w), schedule, now, Return));
  }

  lemma KeepsStartRecover(w: World, t: Tid, now: Timestamp)
    requires Inv(w)
    ensures Inv(Goto(w, t, Recovering(now, FiredInOrder(Replay(Scheduler(w))), DueInOrder(Replay(Scheduler(w)), now))))
  {
    RetainedFiresAreRecorded(Scheduler(w));
    GotoKeeps(w, t, Recovering(now, FiredInOrder(Replay(Scheduler(w))), DueInOrder(Replay(Scheduler(w)), now)));
  }

  lemma KeepsEnd(w: World, a: Action)
    requires Inv(w) && Enabled(w, a) && (a.Publish? || a.Crash?)
    ensures Inv(Do(w, a))
  {
  }

  lemma KeepsForeign(w: World, a: Action)
    requires Inv(w) && Enabled(w, a) && (a.ForeignCreate? || a.ForeignAppend?)
    ensures Inv(Do(w, a))
  {
    match a
    case ForeignCreate(events, ctx, ids) => CreateKeeps(w.target, events, ctx, ids);
    case ForeignAppend(target, expected, events, ctx, ids) => AppendKeeps(w.target, target, expected, events, ctx, ids);
    GrowthKeeps(w, Do(w, a));
    assert Scheduler(Do(w, a)) == Scheduler(w);
  }

  lemma ActionKeepsInv(w: World, a: Action)
    requires Inv(w) && Enabled(w, a)
    ensures Inv(Do(w, a))
  {
    match a
    case StartAppend(t, event, ctx) => GotoKeeps(w, t, Appending(event, ctx, Scheduler(w)));
    case StartFire(t, schedule, now) => KeepsStartFire(w, t, schedule, now);
    case StartRecover(t, now) => KeepsStartRecover(w, t, now);
    case AppendScheduler(t, id) => KeepsAppendScheduler(w, t, id);
    case AppendFired(t, id) => KeepsAppendFired(w, t, id);
    case LoadTarget(t, decoded) => KeepsLoadTarget(w, t, decoded);
    case AppendTarget(t, id) => KeepsAppendTarget(w, t, id);
    case RecoverNext(t) => KeepsRecoverNext(w, t);
    case Publish(_, _) => KeepsEnd(w, a);
    case Crash(_) => KeepsEnd(w, a);
    case ForeignCreate(_, _, _) => KeepsForeign(w, a);
    case ForeignAppend(_, _, _, _, _) => KeepsForeign(w, a);
  }

  // ---------------------------------------------------------------------
  // The theorems over every interleaving
  // ---------------------------------------------------------------------

  lemma {:induction false} RunsKeepInv(trace: seq<World>, actions: seq<Action>, n: nat)
    requires IsRun(trace, actions) && n < |trace|
    ensures Inv(trace[n])
  {
    if n > 0 {
      RunsKeepInv(trace, actions, n - 1);
      ActionKeepsInv(trace[n - 1], actions[n - 1]);
    }
  }

  /** In every interleaving of arming, cancelling, firing and recovering drivers, with crashes
      anywhere, a schedule id is fired at most once, each fire copies the armed fact it answers,
      uncancelled and due at the firing call's instant. */
  lemma FiresAreUnique(trace: seq<World>, actions: seq<Action>, n: nat)
    requires IsRun(trace, actions) && n < |trace|
    ensures AtMostOneFire(Scheduler(trace[n]))
    ensures AllLegitimate(Scheduler(trace[n]), trace[n].nows)
  {
    RunsKeepInv(trace, actions, n);
    LegitimateFiresAreUnique(Scheduler(trace[n]), trace[n].nows);
  }

  /** Every driver-written event answers a fire recorded in the scheduler stream for that target, and is
      the first event of its stream with its caller identity. */
  lemma CompletionsStemFromFires(trace: seq<World>, actions: seq<Action>, n: nat, a: (AggregateId, nat))
    requires IsRun(trace, actions) && n < |trace| && a in trace[n].written
    ensures var s := StreamOf(trace[n].target, a.0);
      && a.1 < |s| && !Holds(s[..a.1], s[a.1].payload.scheduledEventId)
      && exists f :: Recorded(Scheduler(trace[n]),
                              f) && f.target == a.0 && f.callerEventId == s[a.1].payload.scheduledEventId
  {
    RunsKeepInv(trace, actions, n);
    assert WrittenOk(trace[n], a);
  }

  /** A target stream never holds two driver-written events with one caller identity. */
  lemma CompletionsAreUnique(trace: seq<World>, actions: seq<Action>, n: nat, a: (AggregateId, nat),
                             b: (AggregateId, nat))
    requires IsRun(trace, actions) && n < |trace|
    requires a in trace[n].written && b in trace[n].written && a != b && a.0 == b.0
    ensures a.1 < |StreamOf(trace[n].target, a.0)| && b.1 < |StreamOf(trace[n].target, b.0)|
    ensures StreamOf(trace[n].target, a.0)[a.1].payload.scheduledEventId
         != StreamOf(trace[n].target, b.0)[b.1].payload.scheduledEventId
  {
    CompletionsStemFromFires(trace, actions, n, a);
    CompletionsStemFromFires(trace, actions, n, b);
    var s := StreamOf(trace[n].target, a.0);
    if a.1 < b.1 {
      assert s[..b.1][a.1] == s[a.1];
    } else {
      assert s[..a.1][b.1] == s[b.1];
    }
  }

  /** A write of the scheduler opens a stream other than the singleton exactly when its driver had loaded
      an empty history and the store no longer allocates the singleton's id. */
  lemma OrphanExactlyWhen(w: World, t: Tid, id: Uuid)
    requires Contiguous(w.sched) && PcOf(w, t).Appending?
    ensures (exists k :: k != SINGLETON && k !in w.sched.streams && k in DoAppendScheduler(w, t, id).sched.streams) <==>
      PcOf(w, t).loaded == [] && SINGLETON < w.sched.nextId < U64_MAX && id != NIL
  {
    var pc := PcOf(w, t);
    if pc.loaded == [] {
      var st := Create(w.sched, [pc.fact], pc.ctx, [id]).0;
      assert st.streams == w.sched.streams || st.streams.Keys == w.sched.streams.Keys + {w.sched.nextId};
      assert w.sched.nextId !in w.sched.streams;
      assert SINGLETON < w.sched.nextId < U64_MAX && id != NIL ==> w.sched.nextId in st.streams;
    }
  }

  /** Two drivers that both find an empty store: the second one opens stream 2. */
  lemma RacingDriversCanOrphan(target: EventStoreState<CallerEvent>, fact: SchedulerEvent, ctx: CorrelationContext)
    returns (trace: seq<World>, actions: seq<Action>)
    requires Contiguous(target) && !fact.Fired?
    ensures IsRun(trace, actions) && |actions| == 4 && 2 in trace[4].sched.streams
  {
    var w0 := World(EventStoreState(map[], 1), target, map[], map[], {});
    actions := [StartAppend(0, fact, ctx), StartAppend(1, fact, ctx), AppendScheduler(0, 1), AppendScheduler(1, 2)];
    var w1 := Do(w0, actions[0]);
    var w2 := Do(w1, actions[1]);
    assert PcOf(w2, 0) == Appending(fact, ctx, []) && PcOf(w2, 1) == Appending(fact, ctx, []);
    var w3 := Do(w2, actions[2]);
    assert PcOf(w3, 1) == Appending(fact, ctx, []) && w3.sched.nextId == 2;
    var w4 := Do(w3, actions[3]);
    trace := [w0, w1, w2, w3, w4];
    assert 2 in w4.sched.streams;
    hide Do;
    hide Enabled;
  }
}
