/** The scheduler aggregate: its events, replay, and the decision to fire
    (`scheduler.rs` of cherry-pit-core, first half of `fire_schedule` in cherry-pit-app). */
module SchedulerState {
  import opened Prelude
  import opened EventStore

  type ScheduleId = nat
  type Timestamp = int
  newtype Byte = b: int | 0 <= b < 256

  datatype ScheduleArmed = ScheduleArmed(
    scheduleId: ScheduleId,
    fireAt: Timestamp,
    target: AggregateId,
    callerEventId: Uuid,
    callerEventType: string,
    payload: seq<Byte>,
    correlation: CorrelationContext)

  datatype ScheduleFired = ScheduleFired(
    scheduleId: ScheduleId,
    target: AggregateId,
    callerEventId: Uuid,
    callerEventType: string,
    payload: seq<Byte>,
    correlation: CorrelationContext)

  datatype SchedulerEvent =
    | Armed(armed: ScheduleArmed)
    | Fired(fired: ScheduleFired)
    | Cancelled(cancelledId: ScheduleId)

  type History = seq<Envelope<SchedulerEvent>>

  function Subject(e: SchedulerEvent): ScheduleId {
    match e
    case Armed(a) => a.scheduleId
    case Fired(f) => f.scheduleId
    case Cancelled(id) => id
  }

  function FromArmed(a: ScheduleArmed): ScheduleFired {
    ScheduleFired(a.scheduleId, a.target, a.callerEventId, a.callerEventType, a.payload, a.correlation)
  }

  datatype Replayed = Replayed(
    pending: map<ScheduleId, ScheduleArmed>,
    fired: map<ScheduleId, ScheduleFired>,
    cancelled: set<ScheduleId>)

  function ReplayOne(s: Replayed, e: SchedulerEvent): Replayed {
    match e
    case Armed(a) => s.(cancelled := s.cancelled - {a.scheduleId}, pending := s.pending[a.scheduleId := a])
    case Fired(f) => s.(pending := s.pending - {f.scheduleId}, fired := s.fired[f.scheduleId := f])
    case Cancelled(id) => s.(pending := s.pending - {id}, cancelled := s.cancelled + {id})
  }

  function Replay(h: History): Replayed {
    if h == [] then Replayed(map[], map[], {}) else ReplayOne(Replay(h[..|h| - 1]), h[|h| - 1].payload)
  }

  method FromHistory(h: History) returns (s: Replayed)
    ensures s == Replay(h)
  {
    s := Replayed(map[], map[], {});
    var i := 0;
    while i < |h|
      invariant 0 <= i <= |h|
      invariant s == Replay(h[..i])
    {
      assert h[..i + 1][..i] == h[..i];
      match h[i].payload {
        case Armed(a) =>
          s := s.(cancelled := s.cancelled - {a.scheduleId});
          s := s.(pending := s.pending[a.scheduleId := a]);
        case Fired(f) =>
          s := s.(pending := s.pending - {f.scheduleId});
          s := s.(fired := s.fired[f.scheduleId := f]);
        case Cancelled(id) =>
          s := s.(pending := s.pending - {id});
          s := s.(cancelled := s.cancelled + {id});
      }
      i := i + 1;
    }
    assert h[..i] == h;
  }

  // ---------------------------------------------------------------------
  // Replay against the last-event reading of a stream
  // ---------------------------------------------------------------------

  /** Event `i` is the last one about `id`. */
  ghost predicate LastAbout(h: History, id: ScheduleId, i: int) {
    0 <= i < |h| && Subject(h[i].payload) == id && forall k :: i < k < |h| ==> Subject(h[k].payload) != id
  }

  ghost predicate PendingFrom(h: History, id: ScheduleId, a: ScheduleArmed) {
    exists i :: LastAbout(h, id, i) && h[i].payload == Armed(a)
  }

  ghost predicate FiredLast(h: History, id: ScheduleId, f: ScheduleFired) {
    exists i :: 0 <= i < |h| && h[i].payload == Fired(f) && f.scheduleId == id
      && forall k :: i < k < |h| && h[k].payload.Fired? ==> Subject(h[k].payload) != id
  }

  ghost predicate EverFired(h: History, id: ScheduleId) {
    exists i :: 0 <= i < |h| && h[i].payload.Fired? && Subject(h[i].payload) == id
  }

  ghost predicate CancelledLast(h: History, id: ScheduleId) {
    exists i :: 0 <= i < |h| && h[i].payload == Cancelled(id)
      && forall k :: i < k < |h| && h[k].payload.Armed? ==> Subject(h[k].payload) != id
  }

  /** Pending means the last event is `Armed`; fired means a `Fired` exists; cancelled means a
      `Cancelled` with no later `Armed`. */
  ghost predicate Reads(h: History, s: Replayed) {
    && (forall id :: id in s.pending ==> PendingFrom(h, id, s.pending[id]))
    && (forall id, a :: PendingFrom(h, id, a) ==> id in s.pending && s.pending[id] == a)
    && (forall id :: id in s.fired <==> EverFired(h, id))
    && (forall id :: id in s.fired ==> FiredLast(h, id, s.fired[id]))
    && (forall id :: id in s.cancelled <==> CancelledLast(h, id))
    && s.pending.Keys !! s.cancelled
    && (forall id :: id in s.pending ==> s.pending[id].scheduleId == id)
    && (forall id :: id in s.fired ==> s.fired[id].scheduleId == id)
  }

  /** Replay agrees with the last-event reading of every stream. */
  lemma {:induction false} ReplayReads(h: History)
    ensures Reads(h, Replay(h))
  {
    if h != [] {
      ReplayReads(h[..|h| - 1]);
      ReadsStep(h[..|h| - 1], Replay(h[..|h| - 1]), h[|h| - 1]);
      assert h[..|h| - 1] + [h[|h| - 1]] == h;
    }
  }

  lemma ReadsStep(h: History, s: Replayed, e: Envelope<SchedulerEvent>)
    requires Reads(h, s)
    ensures Reads(h + [e], ReplayOne(s, e.payload))
  {
    PendingStep(h, s, e);
    FiredStep(h, s, e);
    CancelledStep(h, s, e);
    var s' := ReplayOne(s, e.payload);
    assert s'.pending.Keys !! s'.cancelled;
  }

  lemma PendingStep(h: History, s: Replayed, e: Envelope<SchedulerEvent>)
    requires Reads(h, s)
    ensures var s' := ReplayOne(s, e.payload);
      && (forall id :: id in s'.pending ==> PendingFrom(h + [e], id, s'.pending[id]))
      && (forall id, a :: PendingFrom(h + [e], id, a) ==> id in s'.pending && s'.pending[id] == a)
  {
    var s' := ReplayOne(s, e.payload);
    var h' := h + [e];
    var x := Subject(e.payload);
    assert LastAbout(h', x, |h|);
    forall id | id in s'.pending ensures PendingFrom(h', id, s'.pending[id]) {
      if id != x {
        var i :| LastAbout(h, id, i) && h[i].payload == Armed(s.pending[id]);
        assert LastAbout(h', id, i) && h'[i].payload == Armed(s'.pending[id]);
      }
    }
    forall id, a | PendingFrom(h', id, a) ensures id in s'.pending && s'.pending[id] == a {
      var i :| LastAbout(h', id, i) && h'[i].payload == Armed(a);
      if id == x {
        assert i == |h|;
      } else {
        assert i < |h| && h[i].payload == Armed(a);
        forall k | i < k < |h| ensures Subject(h[k].payload) != id { assert h'[k] == h[k]; }
        assert LastAbout(h, id, i);
        assert PendingFrom(h, id, a);
      }
    }
  }

  lemma FiredStep(h: History, s: Replayed, e: Envelope<SchedulerEvent>)
    requires Reads(h, s)
    ensures var s' := ReplayOne(s, e.payload);
      && (forall id :: id in s'.fired <==> EverFired(h + [e], id))
      && (forall id :: id in s'.fired ==> FiredLast(h + [e], id, s'.fired[id]))
  {
    var s' := ReplayOne(s, e.payload);
    var h' := h + [e];
    forall id ensures EverFired(h', id) <==> EverFired(h, id) || (e.payload.Fired? && Subject(e.payload) == id) {
      if EverFired(h, id) {
        var i :| 0 <= i < |h| && h[i].payload.Fired? && Subject(h[i].payload) == id;
        assert h'[i] == h[i];
      }
      if e.payload.Fired? && Subject(e.payload) == id { assert h'[|h|] == e; }
    }
    forall id | id in s'.fired ensures FiredLast(h', id, s'.fired[id]) {
      if e.payload.Fired? && Subject(e.payload) == id {
        assert h'[|h|].payload == Fired(s'.fired[id]);
      } else {
        var i :| 0 <= i < |h| && h[i].payload == Fired(s.fired[id]) && s.fired[id].scheduleId == id
          && forall k :: i < k < |h| && h[k].payload.Fired? ==> Subject(h[k].payload) != id;
        assert h'[i].payload == Fired(s'.fired[id]);
        forall k | i < k < |h'| && h'[k].payload.Fired? ensures Subject(h'[k].payload) != id {}
      }
    }
  }

  lemma CancelledStep(h: History, s: Replayed, e: Envelope<SchedulerEvent>)
    requires Reads(h, s)
    ensures forall id :: id in ReplayOne(s, e.payload).cancelled <==> CancelledLast(h + [e], id)
  {
    var h' := h + [e];
    forall id ensures id in ReplayOne(s, e.payload).cancelled <==> CancelledLast(h', id) {
      if CancelledLast(h, id) && !(e.payload.Armed? && Subject(e.payload) == id) {
        var i :| 0 <= i < |h| && h[i].payload == Cancelled(id)
          && forall k :: i < k < |h| && h[k].payload.Armed? ==> Subject(h[k].payload) != id;
        assert h'[i].payload == Cancelled(id);
      }
      if e.payload == Cancelled(id) { assert h'[|h|].payload == Cancelled(id); }
      if CancelledLast(h', id) && e.payload != Cancelled(id) {
        var i :| 0 <= i < |h'| && h'[i].payload == Cancelled(id)
          && forall k :: i < k < |h'| && h'[k].payload.Armed? ==> Subject(h'[k].payload) != id;
        assert h[i].payload == Cancelled(id);
        forall k | i < k < |h| && h[k].payload.Armed? ensures Subject(h[k].payload) != id { assert h'[k] == h[k]; }
        assert h'[|h|] == e;
      }
    }
  }

  // ---------------------------------------------------------------------
  // Iteration in `BTreeMap` order
  // ---------------------------------------------------------------------

  ghost predicate Ascending(s: seq<ScheduleId>) {
    forall i, j :: 0 <= i < j < |s| ==> s[i] < s[j]
  }

  lemma LargestOf(ids: set<ScheduleId>) returns (m: ScheduleId)
    requires ids != {}
    ensures m in ids && forall x :: x in ids ==> x <= m
  {
    var first :| first in ids;
    m := first;
    if ids != {first} {
      assert forall x :: x in ids ==> x == first || x in ids - {first};
      var rest := LargestOf(ids - {first});
      m := if rest < first then first else rest;
    }
  }

  function Largest(ids: set<ScheduleId>): (m: ScheduleId)
    requires ids != {}
    ensures m in ids && forall x :: x in ids ==> x <= m
  {
    assert exists m :: m in ids && forall x :: x in ids ==> x <= m by { var m := LargestOf(ids); }
    var m :| m in ids && forall x :: x in ids ==> x <= m;
    m
  }

  lemma AppendLargest(r: seq<ScheduleId>, ids: set<ScheduleId>, last: ScheduleId)
    requires Ascending(r) && (forall x :: x in ids <==> x in r) && forall x :: x in ids ==> x < last
    ensures Ascending(r + [last]) && forall x :: x in ids + {last} <==> x in r + [last]
  {
    assert forall i :: 0 <= i < |r| ==> r[i] in r;
  }

  /** The ids in ascending order, each once. */
  function SortedIds(ids: set<ScheduleId>): (r: seq<ScheduleId>)
    ensures Ascending(r) && forall x :: x in ids <==> x in r
  {
    if ids == {} then []
    else
      var last := Largest(ids);
      var rest := SortedIds(ids - {last});
      AppendLargest(rest, ids - {last}, last);
      assert ids - {last} + {last} == ids;
      rest + [last]
  }

  function FiredInOrder(s: Replayed): (r: seq<ScheduleFired>)
    ensures forall f :: f in r <==> f in s.fired.Values
  {
    var ids := SortedIds(s.fired.Keys);
    var r := seq(|ids|, i requires 0 <= i < |ids| => assert ids[i] in ids; s.fired[ids[i]]);
    assert forall f :: f in s.fired.Values ==> f in r by {
      forall f | f in s.fired.Values ensures f in r {
        var id :| id in s.fired && s.fired[id] == f;
        var i :| 0 <= i < |ids| && ids[i] == id;
        assert r[i] == f;
      }
    }
    assert forall i :: 0 <= i < |r| ==> ids[i] in ids && r[i] in s.fired.Values;
    r
  }

  function DueInOrder(s: Replayed, now: Timestamp): (r: seq<ScheduleId>)
    ensures Ascending(r) && forall id :: id in r <==> id in s.pending && s.pending[id].fireAt <= now
  {
    SortedIds(set id | id in s.pending && s.pending[id].fireAt <= now)
  }

  // ---------------------------------------------------------------------
  // The decision to fire, and what makes a recorded fire legitimate
  // ---------------------------------------------------------------------

  datatype FireDecision = Terminal | Unknown | NotDue | Fire(fired: ScheduleFired)

  function Decide(h: History, id: ScheduleId, now: Timestamp): FireDecision {
    var s := Replay(h);
    if id in s.fired || id in s.cancelled then Terminal
    else if id !in s.pending then Unknown
    else if s.pending[id].fireAt > now then NotDue
    else if h == [] then Unknown
    else Fire(FromArmed(s.pending[id]))
  }

  /** The four outcomes in terms of the stream alone. */
  lemma DecideMeans(h: History, id: ScheduleId, now: Timestamp)
    ensures Decide(h, id, now).Terminal? <==> EverFired(h, id) || CancelledLast(h, id)
    ensures Decide(h, id, now).Fire? <==>
      !EverFired(h, id) && exists a :: PendingFrom(h, id, a) && a.fireAt <= now
    ensures forall a :: Decide(h, id, now).Fire? && PendingFrom(h, id, a) ==> Decide(h, id, now).fired == FromArmed(a)
    ensures Decide(h, id, now).NotDue? <==>
      !EverFired(h, id) && exists a :: PendingFrom(h, id, a) && a.fireAt > now
  {
    ReplayReads(h);
    var s := Replay(h);
    if id in s.pending {
      assert PendingFrom(h, id, s.pending[id]);
      assert h != [];
    }
  }

  /** The `Fired` at position `i` copies the `Armed` at an earlier position `j`, nothing about the
      schedule lies between them, it was due at the instant `now`, and it is the schedule's first fire. */
  ghost predicate Legitimate(h: History, i: nat, now: Timestamp)
    requires i < |h| && h[i].payload.Fired?
  {
    var f := h[i].payload.fired;
    && (exists j :: 0 <= j < i && h[j].payload.Armed?
          && FromArmed(h[j].payload.armed) == f
          && h[j].payload.armed.fireAt <= now
          && forall k :: j < k < i ==> Subject(h[k].payload) != f.scheduleId)
    && !EverFired(h[..i], f.scheduleId)
  }

  /** `nows` records, per position, the instant the firing call was given. */
  ghost predicate AllLegitimate(h: History, nows: map<nat, Timestamp>) {
    forall i: nat :: i < |h| && h[i].payload.Fired? ==> i in nows && Legitimate(h, i, nows[i])
  }

  ghost predicate AtMostOneFire(h: History) {
    forall i, j {:trigger Subject(h[i].payload), Subject(h[j].payload)} ::
      0 <= i < j < |h| && h[i].payload.Fired? && h[j].payload.Fired? ==>
      Subject(h[i].payload) != Subject(h[j].payload)
  }

  lemma LegitimateFiresAreUnique(h: History, nows: map<nat, Timestamp>)
    requires AllLegitimate(h, nows)
    ensures AtMostOneFire(h)
  {
  }

  lemma LegitimateOnLonger(h: History, e: Envelope<SchedulerEvent>, i: nat, now: Timestamp)
    requires i < |h| && h[i].payload.Fired? && Legitimate(h, i, now)
    ensures (h + [e])[i] == h[i] && Legitimate(h + [e], i, now)
  {
    var h' := h + [e];
    assert h'[..i] == h[..i];
    var f := h[i].payload.fired;
    var j :| 0 <= j < i && h[j].payload.Armed? && FromArmed(h[j].payload.armed) == f
      && h[j].payload.armed.fireAt <= now && forall k :: j < k < i ==> Subject(h[k].payload) != f.scheduleId;
    assert h'[j] == h[j];
    assert forall k :: j < k < i ==> h'[k] == h[k];
  }

  lemma NonFireKeepsLegitimacy(h: History, e: Envelope<SchedulerEvent>, nows: map<nat, Timestamp>)
    requires AllLegitimate(h, nows) && !e.payload.Fired?
    ensures AllLegitimate(h + [e], nows)
  {
    forall i: nat | i < |h + [e]| && (h + [e])[i].payload.Fired?
      ensures i in nows && Legitimate(h + [e], i, nows[i])
    {
      LegitimateOnLonger(h, e, i, nows[i]);
    }
  }

  /** Appending the `Fired` that `Decide` chose on the whole stream is legitimate. */
  lemma DecidedFireIsLegitimate(h: History, e: Envelope<SchedulerEvent>, id: ScheduleId, now: Timestamp,
                                nows: map<nat, Timestamp>)
    requires AllLegitimate(h, nows)
    requires Decide(h, id, now).Fire? && e.payload == Fired(Decide(h, id, now).fired)
    ensures AllLegitimate(h + [e], nows[|h| := now])
    ensures e.payload.fired.scheduleId == id
  {
    var h' := h + [e];
    DecideMeans(h, id, now);
    var a :| PendingFrom(h, id, a) && a.fireAt <= now;
    var j :| LastAbout(h, id, j) && h[j].payload == Armed(a);
    assert h'[..|h|] == h && h'[j] == h[j] && h'[|h|] == e;
    assert forall k :: j < k < |h| ==> h'[k] == h[k];
    assert Legitimate(h', |h|, now);
    forall i: nat | i < |h'| && h'[i].payload.Fired?
      ensures i in nows[|h| := now] && Legitimate(h', i, nows[|h| := now][i])
    {
      if i < |h| {
        LegitimateOnLonger(h, e, i, nows[i]);
      }
    }
  }
}
