/** Event envelopes, their stream contract and the in-memory event store
    (`event.rs`, `testing.rs` of cherry-pit-core). */
module EventStore {
  import opened Prelude

  /** A UUID is a number; zero is `Uuid::nil()`. */
  type Uuid = nat
  const NIL: Uuid := 0

  type AggregateId = NonZeroU64

  datatype CorrelationContext = CorrelationContext(correlationId: Option<Uuid>, causationId: Option<Uuid>)

  datatype Envelope<+E> = Envelope(
    eventId: Uuid,
    aggregateId: AggregateId,
    sequence: NonZeroU64,
    correlationId: Option<Uuid>,
    causationId: Option<Uuid>,
    payload: E)

  datatype EnvelopeError =
    | NilEventId
    | DuplicateEventId(eventId: Uuid)
    | AggregateIdMismatch(expected: AggregateId, actual: AggregateId)
    | SequenceGap(expectedSequence: nat, actualSequence: NonZeroU64)

  datatype StoreError =
    | Indeterminate
    | ConcurrencyConflict(aggregateId: AggregateId, expectedSequence: NonZeroU64, actualSequence: nat)
    | CorruptData
    | Infrastructure

  // ---------------------------------------------------------------------
  // The stream contract
  // ---------------------------------------------------------------------

  /** The replay contract: one aggregate, sequences exactly 1..n, non-nil and distinct identities. */
  ghost predicate ValidStream<E>(id: AggregateId, stream: seq<Envelope<E>>) {
    && (forall i {:trigger stream[i].eventId} :: 0 <= i < |stream| ==> stream[i].eventId != NIL)
    && (forall i {:trigger stream[i].aggregateId} :: 0 <= i < |stream| ==> stream[i].aggregateId == id)
    && (forall i {:trigger stream[i].sequence} :: 0 <= i < |stream| ==> stream[i].sequence == i + 1)
    && (forall i, j {:trigger stream[i].eventId, stream[j].eventId} :: 0 <= i < j < |stream| ==>
          stream[i].eventId != stream[j].eventId)
  }

  ghost predicate Seen<E>(before: seq<Envelope<E>>, x: Uuid) {
    exists i :: 0 <= i < |before| && before[i].eventId == x
  }

  /** The first fault of `next` as the successor of the valid prefix `before`, checks in source order. */
  ghost predicate Faulty<E>(id: AggregateId, before: seq<Envelope<E>>, next: Envelope<E>, e: EnvelopeError) {
    match e
    case NilEventId => next.eventId == NIL
    case DuplicateEventId(x) => next.eventId == x != NIL && Seen(before, x)
    case AggregateIdMismatch(want, got) =>
      next.eventId != NIL && !Seen(before, next.eventId) && want == id != got == next.aggregateId
    case SequenceGap(want, got) =>
      && next.eventId != NIL && !Seen(before, next.eventId) && next.aggregateId == id
      && want == |before| + 1 && want != got == next.sequence
  }

  lemma SeenGrows<E>(stream: seq<Envelope<E>>, n: nat)
    requires n < |stream|
    ensures forall x :: Seen(stream[..n + 1], x) <==> Seen(stream[..n], x) || x == stream[n].eventId
  {
    var a, b := stream[..n], stream[..n + 1];
    forall x ensures Seen(b, x) <==> Seen(a, x) || x == stream[n].eventId {
      if Seen(a, x) {
        var i :| 0 <= i < n && a[i].eventId == x;
        assert b[i].eventId == x;
      }
      if Seen(b, x) {
        var i :| 0 <= i <= n && b[i].eventId == x;
        assert i < n ==> a[i].eventId == x;
      }
      assert b[n] == stream[n];
    }
  }

  method ValidateStream<E>(id: AggregateId, stream: seq<Envelope<E>>) returns (r: Result<(), EnvelopeError>)
    ensures r.Ok? <==> ValidStream(id, stream)
    ensures r.Err? ==>
      exists i :: 0 <= i < |stream| && ValidStream(id, stream[..i]) && Faulty(id, stream[..i], stream[i], r.error)
  {
    var seen: set<Uuid> := {};
    var index := 0;
    while index < |stream|
      invariant 0 <= index <= |stream|
      invariant ValidStream(id, stream[..index])
      invariant forall x :: x in seen <==> Seen(stream[..index], x)
    {
      var envelope := stream[index];
      if envelope.eventId == NIL {
        return Err(NilEventId);
      }
      if envelope.eventId in seen {
        return Err(DuplicateEventId(envelope.eventId));
      }
      seen := seen + {envelope.eventId};
      if envelope.aggregateId != id {
        return Err(AggregateIdMismatch(id, envelope.aggregateId));
      }
      if envelope.sequence != index + 1 {
        return Err(SequenceGap(index + 1, envelope.sequence));
      }
      SeenGrows(stream, index);
      index := index + 1;
    }
    assert stream[..index] == stream;
    r := Ok(());
  }

  // ---------------------------------------------------------------------
  // Batches of envelopes
  // ---------------------------------------------------------------------

  predicate Buildable<E>(start: U64, events: seq<E>, ids: seq<Uuid>)
    requires |ids| == |events|
  {
    && start + |events| <= U64_MAX
    && NIL !in ids
  }

  /** The envelopes of one batch: consecutive sequences after `start`, one context. */
  function Stamped<E>(id: AggregateId, start: U64, events: seq<E>, ctx: CorrelationContext, ids: seq<Uuid>)
    : seq<Envelope<E>>
    requires |ids| == |events| && Buildable(start, events, ids)
  {
    seq(|events|, i requires 0 <= i < |events| =>
      Envelope(ids[i], id, start + i + 1, ctx.correlationId, ctx.causationId, events[i]))
  }

  method BuildEnvelopes<E>(id: AggregateId, start: U64, events: seq<E>, ctx: CorrelationContext, ids: seq<Uuid>)
    returns (r: Result<seq<Envelope<E>>, StoreError>)
    requires |ids| == |events|
    ensures r.Ok? <==> Buildable(start, events, ids)
    ensures r.Ok? ==> r.value == Stamped(id, start, events, ctx, ids)
    ensures r.Err? ==> r.error == Infrastructure
  {
    var envelopes: seq<Envelope<E>> := [];
    var i := 0;
    while i < |events|
      invariant 0 <= i <= |events| == |ids|
      invariant start + i <= U64_MAX && |envelopes| == i
      invariant forall k :: 0 <= k < i ==> ids[k] != NIL
      invariant forall k :: 0 <= k < i ==>
        envelopes[k] == Envelope(ids[k], id, start + k + 1, ctx.correlationId, ctx.causationId, events[k])
    {
      if start + i + 1 > U64_MAX || ids[i] == NIL {
        return Err(Infrastructure);
      }
      envelopes := envelopes + [Envelope(ids[i], id, start + i + 1, ctx.correlationId, ctx.causationId, events[i])];
      i := i + 1;
    }
    r := Ok(envelopes);
  }

  // ---------------------------------------------------------------------
  // Store states and the two writing operations on them
  // ---------------------------------------------------------------------

  datatype EventStoreState<+E> = EventStoreState(streams: map<AggregateId, seq<Envelope<E>>>, nextId: NonZeroU64)

  function StreamOf<E>(st: EventStoreState<E>, id: AggregateId): seq<Envelope<E>> {
    if id in st.streams then st.streams[id] else []
  }

  function LastSequence<E>(stream: seq<Envelope<E>>): nat {
    if stream == [] then 0 else stream[|stream| - 1].sequence
  }

  function Create<E>(st: EventStoreState<E>, events: seq<E>, ctx: CorrelationContext, ids: seq<Uuid>)
    : (r: (EventStoreState<E>, Result<(AggregateId, seq<Envelope<E>>), StoreError>))
    requires |ids| == |events|
  {
    if events == [] || st.nextId == U64_MAX then
      (st, Err(Infrastructure))
    else
      var bumped := st.(nextId := st.nextId + 1);
      if !Buildable(0, events, ids) then
        (bumped, Err(Infrastructure))
      else
        var envelopes := Stamped(st.nextId, 0, events, ctx, ids);
        (bumped.(streams := st.streams[st.nextId := envelopes]), Ok((st.nextId, envelopes)))
  }

  function Append<E>(st: EventStoreState<E>, id: AggregateId, expected: NonZeroU64, events: seq<E>,
                     ctx: CorrelationContext, ids: seq<Uuid>)
    : (r: (EventStoreState<E>, Result<seq<Envelope<E>>, StoreError>))
    requires |ids| == |events|
  {
    if events == [] then
      (st, Ok([]))
    else if id !in st.streams then
      (st, Err(Infrastructure))
    else if LastSequence(st.streams[id]) != expected then
      (st, Err(ConcurrencyConflict(id, expected, LastSequence(st.streams[id]))))
    else if !Buildable(expected, events, ids) then
      (st, Err(Infrastructure))
    else
      var envelopes := Stamped(id, expected, events, ctx, ids);
      (st.(streams := st.streams[id := st.streams[id] + envelopes]), Ok(envelopes))
  }

  /** Every stream is non-empty, contiguous from 1, bound to its own id, and allocated below `nextId`. */
  ghost predicate Contiguous<E>(st: EventStoreState<E>) {
    forall id :: id in st.streams ==>
      && id < st.nextId
      && st.streams[id] != []
      && forall i :: 0 <= i < |st.streams[id]| ==>
           st.streams[id][i].sequence == i + 1 && st.streams[id][i].aggregateId == id
  }

  /** `later` holds everything `earlier` held: streams only ever grow at their end. */
  ghost predicate Extends<E>(earlier: EventStoreState<E>, later: EventStoreState<E>) {
    forall id :: id in earlier.streams ==> id in later.streams && earlier.streams[id] <= later.streams[id]
  }

  lemma CreateKeeps<E>(st: EventStoreState<E>, events: seq<E>, ctx: CorrelationContext, ids: seq<Uuid>)
    requires |ids| == |events| && Contiguous(st)
    ensures var (st', r) := Create(st, events, ctx, ids);
      && Contiguous(st') && Extends(st, st') && st.nextId <= st'.nextId
      && (r.Ok? ==>
            r.value.0 !in st.streams && r.value.0 == st.nextId && st'.streams == st.streams[r.value.0 := r.value.1])
      && (r.Err? ==> st'.streams == st.streams)
  {
  }

  lemma AppendKeeps<E>(st: EventStoreState<E>, id: AggregateId, expected: NonZeroU64, events: seq<E>,
                       ctx: CorrelationContext, ids: seq<Uuid>)
    requires |ids| == |events| && Contiguous(st)
    ensures var (st', r) := Append(st, id, expected, events, ctx, ids);
      && Contiguous(st') && Extends(st, st') && st.nextId == st'.nextId
      && (r.Err? ==> st' == st)
      && (r.Ok? ==> forall k :: k in st'.streams && k != id ==> k in st.streams && st'.streams[k] == st.streams[k])
  {
  }

  /** A one-event append adds exactly that event to exactly that stream, or nothing at all. */
  lemma AppendOne<E>(st: EventStoreState<E>, id: AggregateId, expected: NonZeroU64, e: E, ctx: CorrelationContext,
                     ids: seq<Uuid>)
    requires |ids| == 1
    ensures var (st', r) := Append(st, id, expected, [e], ctx, ids);
      && (r.Ok? ==> |r.value| == 1 && r.value[0].payload == e && StreamOf(st', id) == StreamOf(st, id) + r.value)
      && (forall k :: k != id || r.Err? ==> StreamOf(st', k) == StreamOf(st, k))
  {
  }

  lemma CreateOne<E>(st: EventStoreState<E>, e: E, ctx: CorrelationContext, ids: seq<Uuid>)
    requires |ids| == 1 && Contiguous(st)
    ensures var (st', r) := Create(st, [e], ctx, ids);
      && (r.Ok? ==> |r.value.1| == 1 && r.value.1[0].payload == e)
      && (r.Ok? ==> StreamOf(st, r.value.0) == [] && StreamOf(st', r.value.0) == r.value.1)
      && (forall k :: r.Err? || k != r.value.0 ==> StreamOf(st', k) == StreamOf(st, k))
  {
  }

  /** Optimistic concurrency: when an append that expects the last sequence of an earlier load
      succeeds, nobody wrote to the stream between the load and the append. */
  lemma LoadThenAppend<E>(loaded: EventStoreState<E>, now: EventStoreState<E>, id: AggregateId, events: seq<E>,
                          ctx: CorrelationContext, ids: seq<Uuid>)
    requires |ids| == |events| && events != []
    requires Contiguous(loaded) && Contiguous(now) && Extends(loaded, now)
    requires id in loaded.streams
    requires Append(now, id, LastSequence(StreamOf(loaded, id)), events, ctx, ids).1.Ok?
    ensures StreamOf(now, id) == StreamOf(loaded, id)
  {
  }

  // ---------------------------------------------------------------------
  // Runs of the store: every stream stays valid and causally ordered
  // ---------------------------------------------------------------------

  datatype StoreOp<+E> =
    | CreateOp(events: seq<E>, ctx: CorrelationContext, ids: seq<Uuid>)
    | AppendOp(id: AggregateId, expected: NonZeroU64, events: seq<E>, ctx: CorrelationContext, ids: seq<Uuid>)

  ghost predicate WellFormedOp<E>(op: StoreOp<E>) {
    |op.ids| == |op.events|
  }

  function Perform<E>(st: EventStoreState<E>, op: StoreOp<E>): EventStoreState<E>
    requires |op.ids| == |op.events|
  {
    match op
    case CreateOp(events, ctx, ids) => Create(st, events, ctx, ids).0
    case AppendOp(id, expected, events, ctx, ids) => Append(st, id, expected, events, ctx, ids).0
  }

  /** The identities drawn for an operation are new: never used by an envelope, never named as a cause. */
  ghost predicate FreshIds<E>(st: EventStoreState<E>, ctx: CorrelationContext, ids: seq<Uuid>) {
    && NIL !in ids
    && (forall i, j :: 0 <= i < j < |ids| ==> ids[i] != ids[j])
    && (forall i :: 0 <= i < |ids| ==> ctx.causationId != Some(ids[i]))
    && (forall id, k, i :: id in st.streams && 0 <= k < |st.streams[id]| && 0 <= i < |ids| ==>
          st.streams[id][k].eventId != ids[i] && st.streams[id][k].causationId != Some(ids[i]))
  }

  /** A cause always precedes its effect in the stream. */
  ghost predicate CausallyOrdered<E>(stream: seq<Envelope<E>>) {
    forall i, j :: 0 <= i < |stream| && 0 <= j < |stream| && stream[i].causationId == Some(stream[j].eventId) ==> j < i
  }

  ghost predicate IsRun<E>(trace: seq<EventStoreState<E>>, ops: seq<StoreOp<E>>) {
    && |trace| == |ops| + 1
    && trace[0] == EventStoreState(map[], 1)
    && forall i :: 0 <= i < |ops| ==>
         && WellFormedOp(ops[i])
         && FreshIds(trace[i], ops[i].ctx, ops[i].ids)
         && trace[i + 1] == Perform(trace[i], ops[i])
  }

  ghost predicate Sound<E>(st: EventStoreState<E>) {
    && Contiguous(st)
    && forall id :: id in st.streams ==> ValidStream(id, st.streams[id]) && CausallyOrdered(st.streams[id])
  }

  /** Extending a valid, causally ordered stream by a fresh batch keeps both properties. */
  lemma BatchKeepsStream<E>(id: AggregateId, stream: seq<Envelope<E>>, events: seq<E>, ctx: CorrelationContext,
                            ids: seq<Uuid>)
    requires |ids| == |events| && |stream| <= U64_MAX && Buildable(|stream|, events, ids)
    requires ValidStream(id, stream) && CausallyOrdered(stream)
    requires forall i, j :: 0 <= i < j < |ids| ==> ids[i] != ids[j]
    requires forall i :: 0 <= i < |ids| ==> ctx.causationId != Some(ids[i])
    requires forall k, i :: 0 <= k < |stream| && 0 <= i < |ids| ==>
      stream[k].eventId != ids[i] && stream[k].causationId != Some(ids[i])
    ensures ValidStream(id, stream + Stamped(id, |stream|, events, ctx, ids))
    ensures CausallyOrdered(stream + Stamped(id, |stream|, events, ctx, ids))
  {
  }

  lemma PerformKeepsSound<E>(st: EventStoreState<E>, op: StoreOp<E>)
    requires Sound(st) && WellFormedOp(op) && FreshIds(st, op.ctx, op.ids)
    ensures Sound(Perform(st, op))
  {
    match op
    case CreateOp(events, ctx, ids) =>
      CreateKeeps(st, events, ctx, ids);
      if Create(st, events, ctx, ids).1.Ok? {
        var none: seq<Envelope<E>> := [];
        BatchKeepsStream(st.nextId, none, events, ctx, ids);
        assert none + Stamped(st.nextId, 0, events, ctx, ids) == Stamped(st.nextId, 0, events, ctx, ids);
      }
    case AppendOp(id, expected, events, ctx, ids) =>
      AppendKeeps(st, id, expected, events, ctx, ids);
      if events != [] && Append(st, id, expected, events, ctx, ids).1.Ok? {
        assert expected == |st.streams[id]|;
        BatchKeepsStream(id, st.streams[id], events, ctx, ids);
      }
  }

  /** In every store reachable by create and append with fresh identities, each stream satisfies
      the replay contract and causes precede effects. */
  lemma {:induction false} ReachableStoresAreSound<E>(trace: seq<EventStoreState<E>>, ops: seq<StoreOp<E>>)
    requires IsRun(trace, ops)
    ensures forall i :: 0 <= i < |trace| ==> Sound(trace[i])
  {
    var n := 0;
    while n < |ops|
      invariant 0 <= n <= |ops|
      invariant forall i :: 0 <= i <= n ==> Sound(trace[i])
    {
      PerformKeepsSound(trace[n], ops[n]);
      n := n + 1;
    }
  }
}
