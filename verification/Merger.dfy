/** The single-task command merger (`merger.rs` and `shared.rs` of cherry-pit-merger) against a
    plain map from domain key to event list. */
module Mergers {
  import opened Prelude
  import opened EventStore
  import opened InMemoryEventStores

  datatype PersistMode = Create | CreateOrAppend(key: string) | AppendStrict(key: string)

  datatype MergerError = Store(error: StoreError) | Rejected | MissingKey

  /** What the store's medium does to one command: nothing, fail the read, fail the write with nothing
      landed, or report an unknown outcome. */
  datatype Fault = Healthy | ReadFails | WriteFails | WriteUnknown(landed: bool)

  /** Keys and the events each has accepted, in order. */
  type Routes<E> = map<string, seq<E>>

  function Payloads<E>(stream: seq<Envelope<E>>): seq<E> {
    seq(|stream|, i requires 0 <= i < |stream| => stream[i].payload)
  }

  lemma NoPayloads<E>()
    ensures Payloads<E>([]) == []
  {
  }

  lemma PayloadsConcat<E>(a: seq<Envelope<E>>, b: seq<Envelope<E>>)
    ensures Payloads(a + b) == Payloads(a) + Payloads(b)
  {
  }

  lemma PayloadsStamped<E>(id: AggregateId, start: U64, events: seq<E>, ctx: CorrelationContext, ids: seq<Uuid>)
    requires |ids| == |events| && Buildable(start, events, ids)
    ensures Payloads(Stamped(id, start, events, ctx, ids)) == events
  {
  }

  /** The aggregate and the arm: pure parameters of the merger. */
  datatype Arm<!A, !E, !Cmd> = Arm(
    initial: A,
    apply: (A, E) -> A,
    persistMode: Cmd -> PersistMode,
    handle: (A, Cmd) -> Option<seq<E>>)

  function Fold<A, E>(apply: (A, E) -> A, initial: A, events: seq<E>): A {
    if events == [] then initial else apply(Fold(apply, initial, events[..|events| - 1]), events[|events| - 1])
  }

  function EventsOf<E>(routes: Routes<E>, key: string): seq<E> {
    if key in routes then routes[key] else []
  }

  /** The events a command yields, handled against the fold of what its key already accepted. */
  function Yield<A, E, Cmd>(arm: Arm<A, E, Cmd>, routes: Routes<E>, cmd: Cmd): Option<seq<E>> {
    match arm.persistMode(cmd)
    case Create => arm.handle(arm.initial, cmd)
    case CreateOrAppend(key) => arm.handle(Fold(arm.apply, arm.initial, EventsOf(routes, key)), cmd)
    case AppendStrict(key) =>
      if key in routes then arm.handle(Fold(arm.apply, arm.initial, routes[key]), cmd) else None
  }

  /** The map after an accepted command. */
  function Accepted<A, E, Cmd>(arm: Arm<A, E, Cmd>, routes: Routes<E>, cmd: Cmd): Routes<E>
    requires Yield(arm, routes, cmd).Some?
  {
    var events := Yield(arm, routes, cmd).value;
    match arm.persistMode(cmd)
    case Create => routes
    case CreateOrAppend(key) => routes[key := EventsOf(routes, key) + events]
    case AppendStrict(key) => routes[key := EventsOf(routes, key) + events]
  }

  lemma NothingAccepted<E>(routes: Routes<E>, key: string)
    requires key in routes
    ensures routes[key := EventsOf(routes, key) + []] == routes
  {
    assert EventsOf(routes, key) + [] == routes[key];
  }

  function KeyOf(mode: PersistMode): Option<string> {
    match mode
    case Create => None
    case CreateOrAppend(key) => Some(key)
    case AppendStrict(key) => Some(key)
  }

  /** The map after a whole queue: each accepted command in turn, the others without effect. */
  function Served<A, E, Cmd>(arm: Arm<A, E, Cmd>, routes: Routes<E>, cmds: seq<Cmd>, accepted: seq<bool>): Routes<E>
    requires |accepted| == |cmds|
  {
    if cmds == [] then routes else
    var n := |cmds| - 1;
    var before := Served(arm, routes, cmds[..n], accepted[..n]);
    if accepted[n] && Yield(arm, before, cmds[n]).Some? then Accepted(arm, before, cmds[n]) else before
  }

  /** What one key owns after a queue, told without any map: what it owned before, and the events
      `handle` returned for the accepted commands addressed to it, each handled against the fold of the
      earlier ones. */
  function History<A, E, Cmd>(arm: Arm<A, E, Cmd>, key: string, owned: seq<E>, cmds: seq<Cmd>, accepted: seq<bool>)
    : (r: seq<E>)
    requires |accepted| == |cmds|
    ensures owned <= r
  {
    if cmds == [] then owned else
    var n := |cmds| - 1;
    var earlier := History(arm, key, owned, cmds[..n], accepted[..n]);
    if accepted[n] && KeyOf(arm.persistMode(cmds[n])) == Some(key) then
      match arm.handle(Fold(arm.apply, arm.initial, earlier), cmds[n])
      case Some(events) => earlier + events
      case None => earlier
    else earlier
  }

  /** Every accepted command was one `handle` said yes to, and a strict append named a key some
      earlier accepted command had opened. */
  ghost predicate Justified<A, E, Cmd>(arm: Arm<A, E, Cmd>, routes: Routes<E>, cmds: seq<Cmd>, accepted: seq<bool>)
    requires |accepted| == |cmds|
  {
    forall i :: 0 <= i < |cmds| && accepted[i] ==>
      Yield(arm, Served(arm, routes, cmds[..i], accepted[..i]), cmds[i]).Some?
  }

  /** The map reached by serving a queue whose accepted commands were all justified. */
  ghost predicate Tracks<A, E, Cmd>(arm: Arm<A, E, Cmd>, start: Routes<E>, cmds: seq<Cmd>, accepted: seq<bool>,
                                    routes: Routes<E>) {
    |accepted| == |cmds| && Justified(arm, start, cmds, accepted) && routes == Served(arm, start, cmds, accepted)
  }

  lemma TracksStep<A, E, Cmd>(arm: Arm<A, E, Cmd>, start: Routes<E>, cmds: seq<Cmd>, accepted: seq<bool>,
                              routes: Routes<E>,
                              cmd: Cmd, ok: bool, routes': Routes<E>)
    requires Tracks(arm, start, cmds, accepted, routes)
    requires ok ==> Yield(arm, routes, cmd).Some? && routes' == Accepted(arm, routes, cmd)
    requires !ok ==> routes' == routes
    ensures Tracks(arm, start, cmds + [cmd], accepted + [ok], routes')
  {
    var n := |cmds|;
    var cmds', accepted' := cmds + [cmd], accepted + [ok];
    assert cmds'[..n] == cmds && accepted'[..n] == accepted;
    forall i | 0 <= i <= n && accepted'[i]
      ensures Yield(arm, Served(arm, start, cmds'[..i], accepted'[..i]), cmds'[i]).Some?
    {
      assert cmds'[..i] == cmds[..i] && accepted'[..i] == accepted[..i];
      assert i < n ==> accepted[i] && cmds'[i] == cmds[i];
    }
  }

  /** Keys do not interfere: after any queue served from any map, what the map holds for a key is that
      key's own history; a key is present exactly when it was before or some accepted command was
      addressed to it. */
  lemma {:induction false} KeysAreIndependent<A, E, Cmd>(arm: Arm<A, E, Cmd>, start: Routes<E>, key: string,
                                                         cmds: seq<Cmd>, accepted: seq<bool>)
    requires |accepted| == |cmds| && Justified(arm, start, cmds, accepted)
    ensures EventsOf(Served(arm, start, cmds, accepted), key) == History(arm, key, EventsOf(start, key), cmds, accepted)
    ensures key in Served(arm, start, cmds, accepted) <==>
      key in start || exists i :: 0 <= i < |cmds| && accepted[i] && KeyOf(arm.persistMode(cmds[i])) == Some(key)
  {
    if cmds != [] {
      var n := |cmds| - 1;
      var xs, as' := cmds[..n], accepted[..n];
      forall i | 0 <= i < n && as'[i]
        ensures Yield(arm, Served(arm, start, xs[..i], as'[..i]), xs[i]).Some?
      {
        assert xs[..i] == cmds[..i] && as'[..i] == accepted[..i] && accepted[i];
      }
      KeysAreIndependent(arm, start, key, xs, as');
      forall i | 0 <= i < n && accepted[i] && KeyOf(arm.persistMode(cmds[i])) == Some(key)
        ensures key in Served(arm, start, xs, as')
      {
        assert as'[i] && xs[i] == cmds[i];
      }
    }
  }

  /** The routing index reads as a map of event lists through the store. */
  function RoutesOf<E>(st: EventStoreState<E>, index: map<string, AggregateId>): Routes<E> {
    map key | key in index :: Payloads(StreamOf(st, index[key]))
  }

  /** Index and tracker fit the store: indexed streams exist and are not shared, and a tracked
      sequence is the stream's last unless an unknown outcome touched that stream. */
  ghost predicate Fits<E>(st: EventStoreState<E>, index: map<string, AggregateId>, nextSeq: map<AggregateId,
                          NonZeroU64>,
                          unknown: set<AggregateId>) {
    && (forall k :: k in index ==> index[k] in st.streams)
    && (forall k, l :: k in index && l in index && k != l ==> index[k] != index[l])
    && (forall id :: id in nextSeq && id !in unknown ==>
          id in st.streams && nextSeq[id] == LastSequence(st.streams[id]))
  }

  /** When a healthy store takes the events: a new stream needs at least one event and a free id, and
      no stream outgrows 64-bit sequences. */
  ghost predicate Room<E>(st: EventStoreState<E>, index: map<string, AggregateId>, mode: PersistMode, events: seq<E>) {
    if KeyOf(mode).Some? && KeyOf(mode).value in index then
      LastSequence(StreamOf(st, index[KeyOf(mode).value])) + |events| <= U64_MAX
    else
      events != [] && |events| <= U64_MAX && st.nextId < U64_MAX
  }

  /** A queued command with its context and what the store does to it. */
  datatype Queued<Cmd> = Queued(cmd: Cmd, ctx: CorrelationContext, fault: Fault)

  function Commands<Cmd>(queue: seq<Queued<Cmd>>): seq<Cmd> {
    seq(|queue|, i requires 0 <= i < |queue| => queue[i].cmd)
  }

  /** No command of the queue meets an unknown outcome. */
  ghost predicate OutcomesKnown<Cmd>(queue: seq<Queued<Cmd>>) {
    forall i :: 0 <= i < |queue| ==> !queue[i].fault.WriteUnknown?
  }

  function Oks(replies: seq<Result<(), MergerError>>): seq<bool> {
    seq(|replies|, i requires 0 <= i < |replies| => replies[i].Ok?)
  }

  /** Exactly one stream is new, and it holds exactly these events. */
  ghost predicate OpenedOne<E>(st: EventStoreState<E>, st': EventStoreState<E>, events: seq<E>) {
    exists id ::
      && id !in st.streams
      && st'.streams.Keys == st.streams.Keys + {id}
      && Payloads(StreamOf(st', id)) == events
  }

  /** A command took effect exactly as the simple map says: its events are those `handle` yields on
      the fold of its key's history, they are on the bus if it is up, and a stream was opened exactly
      when the command names no indexed key. */
  ghost predicate TookEffect<A, E, Cmd>(arm: Arm<A, E, Cmd>, cmd: Cmd, busUp: bool,
                                        st: EventStoreState<E>, st': EventStoreState<E>,
                                        index: map<string, AggregateId>, index': map<string, AggregateId>,
                                        published: seq<Envelope<E>>, published': seq<Envelope<E>>) {
    var routes, key := RoutesOf(st, index), KeyOf(arm.persistMode(cmd));
    && Yield(arm, routes, cmd).Some?
    && RoutesOf(st', index') == Accepted(arm, routes, cmd)
    && var events := Yield(arm, routes, cmd).value;
    && Payloads(published') == Payloads(published) + (if busUp then events else [])
    && if key.Some? && key.value in index then st'.streams.Keys == st.streams.Keys else OpenedOne(st, st', events)
  }

  lemma KeyedEffect<A, E, Cmd>(arm: Arm<A, E, Cmd>, cmd: Cmd, busUp: bool, st: EventStoreState<E>,
                               st': EventStoreState<E>,
                               index: map<string, AggregateId>, index': map<string, AggregateId>,
                               published: seq<Envelope<E>>, envelopes: seq<Envelope<E>>, key: string, events: seq<E>)
    requires KeyOf(arm.persistMode(cmd)) == Some(key) && Yield(arm, RoutesOf(st, index), cmd) == Some(events)
    requires RoutesOf(st', index') == RoutesOf(st, index)[key := EventsOf(RoutesOf(st, index), key) + events]
    requires Payloads(envelopes) == events
    requires if key in index then st'.streams.Keys == st.streams.Keys else OpenedOne(st, st', events)
    ensures TookEffect(arm, cmd, busUp, st, st', index, index', published,
                       if busUp then published + envelopes else published)
  {
  }

  /** What a refused command can do to the map: nothing, unless its append to an indexed key landed
      behind an unknown outcome. An unnoticed create changes no key. */
  ghost predicate RefusedEffect<A, E, Cmd>(arm: Arm<A, E, Cmd>, cmd: Cmd, error: MergerError, fault: Fault,
                                           routes: Routes<E>, routes': Routes<E>) {
    || routes' == routes
    || (&& error == Store(Indeterminate) && fault == WriteUnknown(true)
        && KeyOf(arm.persistMode(cmd)).Some? && KeyOf(arm.persistMode(cmd)).value in routes
        && Yield(arm, routes, cmd).Some? && routes' == Accepted(arm, routes, cmd))
  }

  lemma SameMap<A, E, Cmd>(arm: Arm<A, E, Cmd>, cmd: Cmd, fault: Fault, routes: Routes<E>)
    ensures forall error :: RefusedEffect(arm, cmd, error, fault, routes, routes)
  {
  }

  lemma KeyedRefusal<A, E, Cmd>(arm: Arm<A, E, Cmd>, cmd: Cmd, error: StoreError, fault: Fault, key: string,
                                events: seq<E>,
                                st: EventStoreState<E>, index: map<string, AggregateId>, routes': Routes<E>)
    requires KeyOf(arm.persistMode(cmd)) == Some(key) && Yield(arm, RoutesOf(st, index), cmd) == Some(events)
    requires routes' != RoutesOf(st, index) ==>
      && error == Indeterminate
      && fault == WriteUnknown(true)
      && key in index
      && routes' == RoutesOf(st, index)[key := EventsOf(RoutesOf(st, index), key) + events]
    ensures RefusedEffect(arm, cmd, Store(error), fault, RoutesOf(st, index), routes')
  {
  }

  /** What is said of one queued command: a reply of Ok took effect, and an error did only as an append
      behind an unknown outcome. */
  ghost predicate Took<Cmd>(q: Queued<Cmd>, reply: Result<(), MergerError>, took: bool) {
    && (reply.Ok? ==> took)
    && (took && reply.Err? ==> reply.error == Store(Indeterminate) && q.fault == WriteUnknown(true))
  }

  lemma StartOfQueue<A, E, Cmd>(arm: Arm<A, E, Cmd>, queue: seq<Queued<Cmd>>, routes: Routes<E>)
    ensures QueueState(arm, routes, queue, 0, [], [], routes, 0)
  {
    assert Commands(queue[..0]) == [];
  }

  lemma EndOfQueue<A, E, Cmd>(arm: Arm<A, E, Cmd>, start: Routes<E>, queue: seq<Queued<Cmd>>,
                              replies: seq<Result<(), MergerError>>, took: seq<bool>, routes: Routes<E>, streams: int)
    requires QueueState(arm, start, queue, |queue|, replies, took, routes, streams)
    ensures |replies| == |took| == |queue| && Justified(arm, start, Commands(queue), took)
    ensures routes == Served(arm, start, Commands(queue), took)
    ensures forall i :: 0 <= i < |queue| ==> Took(queue[i], replies[i], took[i])
    ensures OutcomesKnown(queue) ==> took == Oks(replies) && streams == Openings(arm, start, Commands(queue), took)
  {
    assert queue[..|queue|] == queue;
  }

  /** A command opens a stream unless it names a key that already has one. */
  predicate Opens<A, E, Cmd>(arm: Arm<A, E, Cmd>, routes: Routes<E>, cmd: Cmd) {
    KeyOf(arm.persistMode(cmd)).None? || KeyOf(arm.persistMode(cmd)).value !in routes
  }

  /** How many streams the accepted commands of a queue open. */
  function Openings<A, E, Cmd>(arm: Arm<A, E, Cmd>, start: Routes<E>, cmds: seq<Cmd>, accepted: seq<bool>): nat
    requires |accepted| == |cmds|
  {
    if cmds == [] then 0 else
    var n := |cmds| - 1;
    var before := Served(arm, start, cmds[..n], accepted[..n]);
    Openings(arm, start, cmds[..n], accepted[..n]) + if accepted[n] && Opens(arm, before, cmds[n]) then 1 else 0
  }

  lemma {:induction false} ServedKeepsKeys<A, E, Cmd>(arm: Arm<A, E, Cmd>, start: Routes<E>, cmds: seq<Cmd>,
                                                      accepted: seq<bool>, n: nat)
    requires |accepted| == |cmds| && n <= |cmds|
    ensures Served(arm, start, cmds[..n], accepted[..n]).Keys <= Served(arm, start, cmds, accepted).Keys
    decreases |cmds|
  {
    if n == |cmds| {
      assert cmds[..n] == cmds && accepted[..n] == accepted;
    } else {
      var k := |cmds| - 1;
      assert cmds[..k][..n] == cmds[..n] && accepted[..k][..n] == accepted[..n];
      ServedKeepsKeys(arm, start, cmds[..k], accepted[..k], n);
    }
  }

  /** Each key is created once: of two accepted commands for one key only the first opens a stream. */
  lemma KeyIsCreatedOnce<A, E, Cmd>(arm: Arm<A, E, Cmd>, start: Routes<E>, cmds: seq<Cmd>, accepted: seq<bool>, i: nat,
                                    j: nat)
    requires |accepted| == |cmds| && Justified(arm, start, cmds, accepted) && i < j < |cmds| && accepted[i]
    requires accepted[j]
    requires KeyOf(arm.persistMode(cmds[i])).Some? && KeyOf(arm.persistMode(cmds[i])) == KeyOf(arm.persistMode(cmds[j]))
    ensures !Opens(arm, Served(arm, start, cmds[..j], accepted[..j]), cmds[j])
  {
    var cs, as' := cmds[..j], accepted[..j];
    assert cs[..i + 1][..i] == cmds[..i] && as'[..i + 1][..i] == accepted[..i] && cs[..i + 1][i] == cmds[i];
    assert Yield(arm, Served(arm, start, cmds[..i], accepted[..i]), cmds[i]).Some?;
    assert KeyOf(arm.persistMode(cmds[i])).value in Served(arm, start, cs[..i + 1], as'[..i + 1]);
    ServedKeepsKeys(arm, start, cs, as', i + 1);
  }

  /** Where the loop stands after `i` commands that opened `streams` streams. */
  ghost predicate QueueState<A, E, Cmd>(arm: Arm<A, E, Cmd>, start: Routes<E>, queue: seq<Queued<Cmd>>, i: nat,
                                        replies: seq<Result<(), MergerError>>, took: seq<bool>, routes: Routes<E>,
                                        streams: int) {
    && i <= |queue| && |replies| == |took| == i
    && Tracks(arm, start, Commands(queue[..i]), took, routes)
    && (forall k :: 0 <= k < i ==> Took(queue[k], replies[k], took[k]))
    && (OutcomesKnown(queue) ==> took == Oks(replies) && streams == Openings(arm, start, Commands(queue[..i]), took))
  }

  lemma QueueStep<A, E, Cmd>(arm: Arm<A, E, Cmd>, start: Routes<E>, queue: seq<Queued<Cmd>>, i: nat,
                             replies: seq<Result<(), MergerError>>, took: seq<bool>, routes: Routes<E>, streams: int,
                             r: Result<(), MergerError>, routes': Routes<E>, streams': int)
    requires i < |queue| && QueueState(arm, start, queue, i, replies, took, routes, streams)
    requires r.Ok? ==> Yield(arm, routes, queue[i].cmd).Some? && routes' == Accepted(arm, routes, queue[i].cmd)
    requires r.Ok? ==> streams' == streams + if Opens(arm, routes, queue[i].cmd) then 1 else 0
    requires r.Err? ==> RefusedEffect(arm, queue[i].cmd, r.error, queue[i].fault, routes, routes')
    requires r.Err? && !queue[i].fault.WriteUnknown? ==> streams' == streams
    ensures QueueState(arm, start, queue, i + 1, replies + [r], took + [r.Ok? || routes' != routes], routes', streams')
  {
    var ok := r.Ok? || routes' != routes;
    MapStep(arm, start, queue, i, took, routes, ok, routes', if ok && Opens(arm, routes, queue[i].cmd) then 1 else 0);
    assert Oks(replies + [r]) == Oks(replies) + [r.Ok?];
    hide Tracks;
    hide Openings;
    hide Opens;
    hide Yield;
    hide Accepted;
  }

  lemma MapStep<A, E, Cmd>(arm: Arm<A, E, Cmd>, start: Routes<E>, queue: seq<Queued<Cmd>>, i: nat, took: seq<bool>,
                           routes: Routes<E>, ok: bool, routes': Routes<E>, more: nat)
    requires i < |queue| && |took| == i && Tracks(arm, start, Commands(queue[..i]), took, routes)
    requires ok ==> Yield(arm, routes, queue[i].cmd).Some? && routes' == Accepted(arm, routes, queue[i].cmd)
    requires !ok ==> routes' == routes
    requires more == if ok && Opens(arm, routes, queue[i].cmd) then 1 else 0
    ensures Tracks(arm, start, Commands(queue[..i + 1]), took + [ok], routes')
    ensures Openings(arm, start, Commands(queue[..i + 1]), took + [ok])
      == Openings(arm, start, Commands(queue[..i]), took) + more
  {
    var cmds, cmds' := Commands(queue[..i]), Commands(queue[..i + 1]);
    assert cmds' == cmds + [queue[i].cmd] && cmds'[..i] == cmds && (took + [ok])[..i] == took;
    TracksStep(arm, start, cmds, took, routes, queue[i].cmd, ok, routes');
  }

  lemma OpenedCounts<A, E, Cmd>(arm: Arm<A, E, Cmd>, cmd: Cmd, busUp: bool, st: EventStoreState<E>,
                                st': EventStoreState<E>,
                                index: map<string, AggregateId>, index': map<string, AggregateId>,
                                published: seq<Envelope<E>>, published': seq<Envelope<E>>)
    requires TookEffect(arm, cmd, busUp, st, st', index, index', published, published')
    ensures |st'.streams.Keys| == |st.streams.Keys| + if Opens(arm, RoutesOf(st, index), cmd) then 1 else 0
    ensures Yield(arm, RoutesOf(st, index), cmd).Some?
    ensures RoutesOf(st', index') == Accepted(arm, RoutesOf(st, index), cmd)
  {
    hide Payloads;
  }

  // ---------------------------------------------------------------------
  // The effect of one store write on the reading
  // ---------------------------------------------------------------------

  /** A create leaves what was indexed alone; tracking the new stream, and indexing it under a free
      key, adds exactly that key with exactly these events. */
  lemma CreateEffect<E>(st: EventStoreState<E>, first: Uuid, events: seq<E>, ctx: CorrelationContext,
                        index: map<string, AggregateId>, nextSeq: map<AggregateId, NonZeroU64>,
                        unknown: set<AggregateId>)
    requires ValidState(st, first) && Fits(st, index, nextSeq, unknown)
    ensures var (st', r) := EventStore.Create(st, events, ctx, Draw(first, |events|));
      && Fits(st', index, nextSeq, unknown) && RoutesOf(st', index) == RoutesOf(st, index)
      && (r.Err? ==> st'.streams == st.streams && r.error == Infrastructure)
      && (r.Ok? ==>
            && r.value.1 != [] && Payloads(r.value.1) == events && r.value.0 !in st.streams
            && st'.streams.Keys == st.streams.Keys + {r.value.0}
            && Payloads(StreamOf(st', r.value.0)) == events
            && Fits(st', index, nextSeq[r.value.0 := LastSequence(r.value.1)], unknown))
      && (r.Ok? <==> events != [] && |events| <= U64_MAX && st.nextId < U64_MAX)
  {
    var ids := Draw(first, |events|);
    assert NIL !in ids && Contiguous(st);
    hide Draw;
    hide ValidState;
    CreateKeeps(st, events, ctx, ids);
    hide Fits;
    hide RoutesOf;
    var (st', r) := EventStore.Create(st, events, ctx, ids);
    if r.Ok? {
      PayloadsStamped(st.nextId, 0, events, ctx, ids);
      CreateFits(st, st', r.value.0, r.value.1, index, nextSeq, unknown);
    } else {
      SameStreams(st, st', index, nextSeq, unknown);
    }
    hide Payloads;
    hide Stamped;
  }

  lemma CreateFits<E>(st: EventStoreState<E>, st': EventStoreState<E>, id: AggregateId, envelopes: seq<Envelope<E>>,
                      index: map<string, AggregateId>, nextSeq: map<AggregateId, NonZeroU64>, unknown: set<AggregateId>)
    requires Fits(st, index, nextSeq, unknown) && id !in st.streams && envelopes != []
    requires st'.streams == st.streams[id := envelopes]
    ensures Fits(st', index, nextSeq, unknown) && Fits(st', index, nextSeq[id := LastSequence(envelopes)], unknown)
    ensures RoutesOf(st', index) == RoutesOf(st, index)
  {
  }

  lemma SameStreams<E>(st: EventStoreState<E>, st': EventStoreState<E>,
                       index: map<string, AggregateId>, nextSeq: map<AggregateId, NonZeroU64>,
                       unknown: set<AggregateId>)
    requires Fits(st, index, nextSeq, unknown) && st'.streams == st.streams
    ensures Fits(st', index, nextSeq, unknown) && RoutesOf(st', index) == RoutesOf(st, index)
  {
  }

  lemma NotIndexed<E>(st: EventStoreState<E>, index: map<string, AggregateId>, nextSeq: map<AggregateId, NonZeroU64>,
                      unknown: set<AggregateId>)
    requires Fits(st, index, nextSeq, unknown)
    ensures index.Values <= st.streams.Keys
  {
  }

  lemma TrackedAt<E>(st: EventStoreState<E>, index: map<string, AggregateId>, nextSeq: map<AggregateId, NonZeroU64>,
                     unknown: set<AggregateId>, id: AggregateId)
    requires Fits(st, index, nextSeq, unknown) && id in nextSeq && id !in unknown
    ensures nextSeq[id] == LastSequence(StreamOf(st, id))
  {
  }

  lemma TrackedExactly<E>(st: EventStoreState<E>, index: map<string, AggregateId>, nextSeq: map<AggregateId,
                          NonZeroU64>,
                          unknown: set<AggregateId>)
    requires Fits(st, index, nextSeq, unknown) && unknown == {}
    ensures forall id :: id in nextSeq ==> id in st.streams && nextSeq[id] == LastSequence(st.streams[id])
  {
  }

  lemma RouteOf<E>(st: EventStoreState<E>, bound: Uuid, key: string, index: map<string, AggregateId>,
                      nextSeq: map<AggregateId, NonZeroU64>, unknown: set<AggregateId>)
    requires ValidState(st, bound) && Fits(st, index, nextSeq, unknown)
    ensures key in RoutesOf(st, index) <==> key in index
    ensures key in index ==>
      StreamOf(st, index[key]) != [] && RoutesOf(st, index)[key] == Payloads(StreamOf(st, index[key]))
  {
  }

  lemma IndexEffect<E>(st: EventStoreState<E>, key: string, id: AggregateId,
                       index: map<string, AggregateId>, nextSeq: map<AggregateId, NonZeroU64>,
                       unknown: set<AggregateId>)
    requires Fits(st, index, nextSeq, unknown) && key !in index && id in st.streams && id !in index.Values
    ensures Fits(st, index[key := id], nextSeq, unknown)
    ensures RoutesOf(st, index[key := id]) == RoutesOf(st, index)[key := Payloads(StreamOf(st, id))]
  {
  }

  /** An append at the last sequence of an indexed stream extends that key's events and no other's;
      it never conflicts. */
  lemma AppendEffect<E>(st: EventStoreState<E>, first: Uuid, key: string, events: seq<E>, ctx: CorrelationContext,
                        index: map<string, AggregateId>, nextSeq: map<AggregateId, NonZeroU64>,
                        unknown: set<AggregateId>)
    requires ValidState(st, first) && Fits(st, index, nextSeq, unknown) && key in index
    ensures var id := index[key]; var stream := StreamOf(st, id);
      && stream != []
      && var (st', r) := EventStore.Append(st, id, LastSequence(stream), events, ctx, Draw(first, |events|));
      && st'.streams.Keys == st.streams.Keys
      && (r.Err? ==> st' == st && r.error == Infrastructure)
      && (r.Ok? ==>
            && Payloads(r.value) == events
            && RoutesOf(st', index) == RoutesOf(st, index)[key := EventsOf(RoutesOf(st, index), key) + events]
            && Fits(st', index, nextSeq, unknown + {id}))
      && (r.Ok? && events != [] ==>
            r.value != [] && Fits(st', index, nextSeq[id := LastSequence(r.value)], unknown - {id}))
      && (r.Ok? && events == [] ==> st' == st && r.value == [])
      && (r.Ok? <==> LastSequence(stream) + |events| <= U64_MAX)
  {
    var id, ids := index[key], Draw(first, |events|);
    assert NIL !in ids && id in st.streams && StreamOf(st, id) != [];
    NothingAccepted(RoutesOf(st, index), key);
    hide EventsOf;
    hide Draw;
    hide ValidState;
    hide Fits;
    hide RoutesOf;
    hide Payloads;
    hide Stamped;
    var stream := StreamOf(st, id);
    var (st', r) := EventStore.Append(st, id, LastSequence(stream), events, ctx, ids);
    if r.Ok? && events != [] {
      PayloadsStamped(id, LastSequence(stream), events, ctx, ids);
      AppendRoutes(st, st', key, r.value, index, nextSeq, unknown);
      AppendFits(st, st', key, r.value, index, nextSeq, unknown);
    } else if r.Ok? {
      UnknownGrows(st, index, nextSeq, unknown, {id});
    }

  }

  lemma UnknownGrows<E>(st: EventStoreState<E>, index: map<string, AggregateId>, nextSeq: map<AggregateId, NonZeroU64>,
                        unknown: set<AggregateId>, more: set<AggregateId>)
    requires Fits(st, index, nextSeq, unknown)
    ensures Fits(st, index, nextSeq, unknown + more)
  {
  }

  lemma AppendFits<E>(st: EventStoreState<E>, st': EventStoreState<E>, key: string, envelopes: seq<Envelope<E>>,
                      index: map<string, AggregateId>, nextSeq: map<AggregateId, NonZeroU64>, unknown: set<AggregateId>)
    requires Fits(st, index, nextSeq, unknown) && key in index && envelopes != []
    requires st'.streams == st.streams[index[key] := st.streams[index[key]] + envelopes]
    ensures Fits(st', index, nextSeq, unknown + {index[key]})
    ensures Fits(st', index, nextSeq[index[key] := LastSequence(envelopes)], unknown - {index[key]})
  {
  }

  lemma AppendRoutes<E>(st: EventStoreState<E>, st': EventStoreState<E>, key: string, envelopes: seq<Envelope<E>>,
                        index: map<string, AggregateId>, nextSeq: map<AggregateId, NonZeroU64>,
                        unknown: set<AggregateId>)
    requires Fits(st, index, nextSeq, unknown) && key in index
    requires st'.streams == st.streams[index[key] := st.streams[index[key]] + envelopes]
    ensures RoutesOf(st', index) == RoutesOf(st, index)[key := EventsOf(RoutesOf(st, index), key) + Payloads(envelopes)]
  {
    PayloadsConcat(st.streams[index[key]], envelopes);
    assert forall k :: k in index && k != key ==> StreamOf(st', index[k]) == StreamOf(st, index[k]);
  }

  class Merger<!A(==), !E(==), !Cmd(==)> {
    const arm: Arm<A, E, Cmd>
    const store: InMemoryEventStore<E>
    const busUp: bool
    var index: map<string, AggregateId>
    var nextSeq: map<AggregateId, NonZeroU64>
    var published: seq<Envelope<E>>
    /** Streams whose tracked sequence may be wrong: stale from the start, or extended by a write with an
        unknown outcome. */
    ghost var unknown: set<AggregateId>

    ghost predicate Valid()
      reads this, store
    {
      store.Valid() && Fits(store.state, index, nextSeq, unknown)
    }

    /** The simple map the merger implements. */
    function Routes(): Routes<E>
      reads this, store
    {
      RoutesOf(store.state, index)
    }

    /** Every tracked sequence is the last one of its stream. */
    ghost predicate TrackerExact()
      reads this, store
    {
      forall id :: id in nextSeq ==> id in store.state.streams && nextSeq[id] == LastSequence(store.state.streams[id])
    }

    /** A healthy store accepts the command: `handle` yields events and there is room for them. */
    ghost predicate Serviceable(cmd: Cmd)
      reads this, store
    {
      var yield' := Yield(arm, Routes(), cmd);
      yield'.Some? && Room(store.state, index, arm.persistMode(cmd), yield'.value)
    }

    twostate predicate KeysKept()
      reads this
    {
      forall k :: k in old(index) ==> k in index && index[k] == old(index[k])
    }

    /** A refused command changes no map and publishes nothing; unless the outcome is indeterminate it
        changes no stream either. */
    twostate predicate Refused(error: MergerError, fault: Fault)
      reads this, store
    {
      && index == old(index) && nextSeq == old(nextSeq) && published == old(published)
      && (error != Store(Indeterminate) ==> store.state.streams == old(store.state.streams))
      && (error == Store(Indeterminate) ==> fault.WriteUnknown?)
    }

    /** Spawned over an index that describes the store, for example an empty one. The tracker may hold
        anything for the streams in `stale`. */
    constructor (arm: Arm<A, E, Cmd>, store: InMemoryEventStore<E>, busUp: bool,
                 index: map<string, AggregateId>, nextSeq: map<AggregateId, NonZeroU64>, ghost stale: set<AggregateId>)
      requires store.Valid() && Fits(store.state, index, nextSeq, stale)
      ensures Valid() && Routes() == RoutesOf(store.state, index) && unknown == stale && published == []
      ensures this.arm == arm && this.store == store && this.busUp == busUp && this.index == index
      ensures this.nextSeq == nextSeq
    {
      this.arm := arm;
      this.store := store;
      this.busUp := busUp;
      this.index := index;
      this.nextSeq := nextSeq;
      this.published := [];
      this.unknown := stale;
    }

    method Lookup(key: string) returns (id: Option<AggregateId>)
      ensures id.Some? <==> key in index
      ensures id.Some? ==> id.value == index[key]
    {
      id := if key in index then Some(index[key]) else None;
    }

    /** The stream behind an indexed id with its last sequence, or nothing on a first reference. */
    method LoadEnvelopesOrEmpty(existing: Option<AggregateId>, fault: Fault)
      returns (r: Result<(seq<Envelope<E>>, Option<NonZeroU64>), StoreError>)
      requires Valid()
      ensures existing.None? ==> r == Ok(([], None))
      ensures existing.Some? && fault.ReadFails? ==> r == Err(Infrastructure)
      ensures existing.Some? && !fault.ReadFails? ==>
        var stream := StreamOf(store.state, existing.value);
        r == if stream == [] then Err(CorruptData) else Ok((stream, Some(LastSequence(stream))))
    {
      if existing.None? {
        return Ok(([], None));
      }
      if fault.ReadFails? {
        return Err(Infrastructure);
      }
      var loaded := store.Load(existing.value);
      var envelopes := loaded.value;
      if envelopes == [] {
        return Err(CorruptData);
      }
      r := Ok((envelopes, Some(envelopes[|envelopes| - 1].sequence)));
    }

    /** Replay of a stream through the aggregate. */
    method Replay(envelopes: seq<Envelope<E>>) returns (state: A)
      ensures state == Fold(arm.apply, arm.initial, Payloads(envelopes))
    {
      state := arm.initial;
      var i := 0;
      while i < |envelopes|
        invariant 0 <= i <= |envelopes|
        invariant state == Fold(arm.apply, arm.initial, Payloads(envelopes)[..i])
      {
        assert Payloads(envelopes)[..i + 1][..i] == Payloads(envelopes)[..i];
        state := arm.apply(state, envelopes[i].payload);
        i := i + 1;
      }
      assert Payloads(envelopes)[..i] == Payloads(envelopes);
    }

    /** Publication failure is absorbed. */
    method PublishOrTrace(envelopes: seq<Envelope<E>>)
      modifies this`published
      ensures published == if busUp then old(published) + envelopes else old(published)
    {
      if busUp {
        published := published + envelopes;
      }
    }

    /** The create call with its tracker update; `id` is the new stream. */
    method CreateTracked(events: seq<E>, ctx: CorrelationContext, fault: Fault)
      returns (r: Result<(AggregateId, seq<Envelope<E>>), StoreError>)
      requires Valid()
      modifies this`nextSeq, store
      ensures Valid() && Routes() == old(Routes())
      ensures r.Ok? ==>
        Payloads(r.value.1) == events && r.value.0 in store.state.streams && r.value.0 !in old(store.state.streams)
      ensures r.Ok? ==> store.state.streams.Keys == old(store.state.streams).Keys + {r.value.0}
      ensures r.Ok? ==> Payloads(StreamOf(store.state, r.value.0)) == events
      ensures r.Err? ==> nextSeq == old(nextSeq)
      ensures r.Err? && r.error != Indeterminate ==> store.state.streams == old(store.state.streams)
      ensures r == Err(Indeterminate) ==> fault.WriteUnknown?
      ensures fault.Healthy? ==> (r.Ok? <==> events != [] && |events| <= U64_MAX && old(store.state.nextId) < U64_MAX)
    {
      hide ValidState;
      hide Fits;
      hide RoutesOf;
      hide Payloads;
      hide EventStore.Create;
      hide StreamOf;
      if fault.WriteFails? {
        return Err(Infrastructure);
      }
      if fault == WriteUnknown(false) {
        return Err(Indeterminate);
      }
      CreateEffect(store.state, store.nextUuid, events, ctx, index, nextSeq, unknown);
      r := store.Create(events, ctx);
      if fault.WriteUnknown? {
        return Err(Indeterminate);
      }
      if r.Ok? {
        nextSeq := nextSeq[r.value.0 := LastSequence(r.value.1)];
      }
    }

    /** The append call with its tracker update, at the sequence just loaded for `key`. */
    method AppendAndTrack(ghost key: string, id: AggregateId, lastSeq: NonZeroU64, events: seq<E>,
                          ctx: CorrelationContext, fault: Fault)
      returns (r: Result<seq<Envelope<E>>, StoreError>)
      requires Valid() && key in index && index[key] == id && lastSeq == LastSequence(StreamOf(store.state, id))
      modifies this`nextSeq, this`unknown, store
      ensures Valid() && store.state.streams.Keys == old(store.state.streams).Keys
      ensures r.Ok? ==> Payloads(r.value) == events
      ensures r.Ok? ==> Routes() == old(Routes())[key := EventsOf(old(Routes()), key) + events]
      ensures r.Ok? && events != [] ==> id in nextSeq && nextSeq[id] == LastSequence(StreamOf(store.state, id))
      ensures r.Err? ==> nextSeq == old(nextSeq)
      ensures r.Err? && Routes() != old(Routes()) ==>
        && r.error == Indeterminate
        && fault == WriteUnknown(true)
        && Routes() == old(Routes())[key := EventsOf(old(Routes()), key) + events]
      ensures r.Err? && r.error != Indeterminate ==> store.state.streams == old(store.state.streams)
      ensures r == Err(Indeterminate) ==> fault.WriteUnknown?
      ensures fault.Healthy? ==> (r.Ok? <==> lastSeq + |events| <= U64_MAX)
      ensures !fault.WriteUnknown? ==> unknown <= old(unknown)
    {
      hide ValidState;
      hide Fits;
      hide RoutesOf;
      hide Payloads;
      hide EventsOf;
      hide LastSequence;
      if fault.WriteFails? {
        r := Err(Infrastructure);
      } else if fault.WriteUnknown? {
        AppendUnknown(key, id, lastSeq, events, ctx, fault.landed);
        r := Err(Indeterminate);
      } else {
        r := AppendLanded(key, id, lastSeq, events, ctx);
      }
    }

    method AppendLanded(ghost key: string, id: AggregateId, lastSeq: NonZeroU64, events: seq<E>,
                        ctx: CorrelationContext)
      returns (r: Result<seq<Envelope<E>>, StoreError>)
      requires Valid() && key in index && index[key] == id && lastSeq == LastSequence(StreamOf(store.state, id))
      modifies this`nextSeq, this`unknown, store
      ensures Valid() && store.state.streams.Keys == old(store.state.streams).Keys
      ensures r.Ok? ==> Payloads(r.value) == events
      ensures r.Ok? ==> Routes() == old(Routes())[key := EventsOf(old(Routes()), key) + events]
      ensures r.Ok? && events != [] ==> id in nextSeq && nextSeq[id] == LastSequence(StreamOf(store.state, id))
      ensures r.Err? ==> Routes() == old(Routes())
      ensures r.Err? ==>
        r.error != Indeterminate && nextSeq == old(nextSeq) && store.state.streams == old(store.state.streams)
      ensures r.Ok? <==> lastSeq + |events| <= U64_MAX
      ensures unknown <= old(unknown)
    {
      hide EventsOf;
      hide ValidState;
      hide Fits;
      hide RoutesOf;
      hide Payloads;
      hide EventStore.Append;
      AppendEffect(store.state, store.nextUuid, key, events, ctx, index, nextSeq, unknown);
      r := store.Append(id, lastSeq, events, ctx);
      if r.Ok? && r.value != [] {
        nextSeq := nextSeq[id := LastSequence(r.value)];
        unknown := unknown - {id};
        TrackedAt(store.state, index, nextSeq, unknown, id);
      }
    }

    /** An append whose outcome the caller never learns; the tracker is left behind. */
    method AppendUnknown(ghost key: string, id: AggregateId, lastSeq: NonZeroU64, events: seq<E>,
                         ctx: CorrelationContext,
                         landed: bool)
      requires Valid() && key in index && index[key] == id && lastSeq == LastSequence(StreamOf(store.state, id))
      modifies this`unknown, store
      ensures Valid() && store.state.streams.Keys == old(store.state.streams).Keys
      ensures Routes() == old(Routes())
        || (landed && Routes() == old(Routes())[key := EventsOf(old(Routes()), key) + events])
    {
      hide EventsOf;
      hide ValidState;
      hide Fits;
      hide RoutesOf;
      hide Payloads;
      hide EventStore.Append;
      if !landed {
        return;
      }
      AppendEffect(store.state, store.nextUuid, key, events, ctx, index, nextSeq, unknown);
      var appended := store.Append(id, lastSeq, events, ctx);
      if appended.Ok? {
        unknown := unknown + {id};
      }
    }

    /** A new stream, indexed under `key` unless the key is taken. */
    method CreateFresh(key: Option<string>, events: seq<E>, ctx: CorrelationContext, fault: Fault)
      returns (r: Result<seq<Envelope<E>>, StoreError>)
      requires Valid()
      modifies this`index, this`nextSeq, store
      ensures Valid() && KeysKept()
      ensures r.Ok? ==> Payloads(r.value) == events && OpenedOne(old(store.state), store.state, events)
      ensures r.Ok? && key.Some? && key.value !in old(index) ==> Routes() == old(Routes())[key.value := events]
      ensures r.Err? || key.None? || key.value in old(index) ==> Routes() == old(Routes())
      ensures r.Err? ==> index == old(index) && nextSeq == old(nextSeq)
      ensures r.Err? && r.error != Indeterminate ==> store.state.streams == old(store.state.streams)
      ensures r == Err(Indeterminate) ==> fault.WriteUnknown?
      ensures fault.Healthy? ==> (r.Ok? <==> events != [] && |events| <= U64_MAX && old(store.state.nextId) < U64_MAX)
    {
      hide ValidState;
      hide Fits;
      hide RoutesOf;
      hide Payloads;
      hide StreamOf;
      NotIndexed(store.state, index, nextSeq, unknown);
      var created := CreateTracked(events, ctx, fault);
      if created.Err? {
        return Err(created.error);
      }
      var (id, envelopes) := created.value;
      if key.Some? && key.value !in index {
        IndexEffect(store.state, key.value, id, index, nextSeq, unknown);
        index := index[key.value := id];
      }
      r := Ok(envelopes);
    }

    /** Create on the first reference to `key`, append at the loaded sequence afterwards. */
    method CreateOrAppend(key: string, existing: Option<AggregateId>, lastSeq: Option<NonZeroU64>, events: seq<E>,
                          ctx: CorrelationContext, fault: Fault)
      returns (r: Result<seq<Envelope<E>>, StoreError>)
      requires Valid() && existing == (if key in index then Some(index[key]) else None)
      requires existing.Some? && lastSeq.Some? ==> lastSeq.value == LastSequence(StreamOf(store.state, existing.value))
      modifies this`index, this`nextSeq, this`unknown, store
      ensures Valid() && KeysKept()
      ensures r.Ok? ==>
        Payloads(r.value) == events && Routes() == old(Routes())[key := EventsOf(old(Routes()), key) + events]
      ensures r.Ok? ==>
        if existing.None? then OpenedOne(old(store.state), store.state,
                                         events) else store.state.streams.Keys == old(store.state.streams).Keys
      ensures r.Err? ==> index == old(index) && nextSeq == old(nextSeq)
      ensures r.Err? && r.error != Indeterminate ==> store.state.streams == old(store.state.streams)
      ensures r == Err(Indeterminate) ==> fault.WriteUnknown?
      ensures r.Err? && Routes() != old(Routes()) ==>
        && r.error == Indeterminate
        && fault == WriteUnknown(true)
        && existing.Some?
        && Routes() == old(Routes())[key := EventsOf(old(Routes()), key) + events]
      ensures existing.Some? && lastSeq.None? ==> r == Err(CorruptData)
      ensures fault.Healthy? && existing.None? ==>
        (r.Ok? <==> events != [] && |events| <= U64_MAX && old(store.state.nextId) < U64_MAX)
      ensures fault.Healthy? && existing.Some? && lastSeq.Some? ==> (r.Ok? <==> lastSeq.value + |events| <= U64_MAX)
      ensures !fault.WriteUnknown? ==> unknown <= old(unknown)
    {
      RouteOf(store.state, store.nextUuid, key, index, nextSeq, unknown);
      assert [] + events == events;
      hide LastSequence;
      hide ValidState;
      hide Fits;
      hide RoutesOf;
      hide Payloads;
      hide StreamOf;
      if existing.None? {
        r := CreateFresh(Some(key), events, ctx, fault);
      } else if lastSeq.Some? {
        r := AppendAndTrack(key, existing.value, lastSeq.value, events, ctx, fault);
      } else {
        r := Err(CorruptData);
      }
    }

    method RunCreate(cmd: Cmd, ctx: CorrelationContext, fault: Fault) returns (r: Result<(), MergerError>)
      requires Valid() && arm.persistMode(cmd).Create?
      modifies this`index, this`nextSeq, this`published, store
      ensures Valid() && KeysKept()
      ensures if r.Ok?
              then TookEffect(arm, cmd, busUp, old(store.state), store.state, old(index), index, old(published),
                              published)
              else Refused(r.error, fault)
      ensures r.Err? ==> RefusedEffect(arm, cmd, r.error, fault, old(Routes()), Routes())
      ensures r != Err(MissingKey)
      ensures fault.Healthy? ==> (r.Ok? <==> old(Serviceable(cmd)))
    {
      hide LastSequence;
      hide ValidState;
      hide Fits;
      hide RoutesOf;
      hide Payloads;
      hide StreamOf;
      var handled := arm.handle(arm.initial, cmd);
      if handled.None? {
        return Err(Rejected);
      }
      var created := CreateFresh(None, handled.value, ctx, fault);
      if created.Err? {
        return Err(Store(created.error));
      }
      PayloadsConcat(published, created.value);
      PublishOrTrace(created.value);
      r := Ok(());
    }

    /** The reading half of a keyed command: look the key up, load and replay its stream, and ask the
        arm. Nothing is written. */
    method HandleAgainstHistory(key: string, cmd: Cmd, fault: Fault)
      returns (r: Result<(Option<AggregateId>, Option<NonZeroU64>, seq<E>), MergerError>)
      requires Valid() && KeyOf(arm.persistMode(cmd)) == Some(key)
      ensures r == Err(MissingKey) <==> arm.persistMode(cmd).AppendStrict? && key !in index
      ensures r.Ok? ==> r.value.0 == if key in index then Some(index[key]) else None
      ensures r.Ok? && key in index ==>
        var stream := StreamOf(store.state, index[key]); stream != [] && r.value.1 == Some(LastSequence(stream))
      ensures r.Ok? ==> Yield(arm, Routes(), cmd) == Some(r.value.2)
      ensures fault.Healthy? ==> (r.Ok? <==> Yield(arm, Routes(), cmd).Some?)
      ensures r.Err? ==> r.error != Store(Indeterminate)
    {
      RouteOf(store.state, store.nextUuid, key, index, nextSeq, unknown);
      hide LastSequence;
      hide ValidState;
      hide Fits;
      hide RoutesOf;
      hide Payloads;
      hide StreamOf;
      var existing := Lookup(key);
      if existing.None? && arm.persistMode(cmd).AppendStrict? {
        return Err(MissingKey);
      }
      var loaded := LoadEnvelopesOrEmpty(existing, fault);
      if loaded.Err? {
        return Err(Store(loaded.error));
      }
      var state := Replay(loaded.value.0);
      NoPayloads<E>();
      var handled := arm.handle(state, cmd);
      r := if handled.None? then Err(Rejected) else Ok((existing, loaded.value.1, handled.value));
    }

    method RunCreateOrAppend(key: string, cmd: Cmd, ctx: CorrelationContext, fault: Fault)
      returns (r: Result<(), MergerError>)
      requires Valid() && arm.persistMode(cmd) == PersistMode.CreateOrAppend(key)
      modifies this`index, this`nextSeq, this`published, this`unknown, store
      ensures Valid() && KeysKept()
      ensures if r.Ok?
              then TookEffect(arm, cmd, busUp, old(store.state), store.state, old(index), index, old(published),
                              published)
              else Refused(r.error, fault)
      ensures r.Err? ==> RefusedEffect(arm, cmd, r.error, fault, old(Routes()), Routes())
      ensures r != Err(MissingKey)
      ensures fault.Healthy? ==> (r.Ok? <==> old(Serviceable(cmd)))
      ensures !fault.WriteUnknown? ==> unknown <= old(unknown)
    {
      hide LastSequence;
      hide ValidState;
      hide Fits;
      hide RoutesOf;
      hide Payloads;
      hide StreamOf;
      hide Yield;
      hide EventsOf;
      hide TookEffect;
      hide OpenedOne;
      hide RefusedEffect;
      SameMap(arm, cmd, fault, Routes());
      var handled := HandleAgainstHistory(key, cmd, fault);
      if handled.Err? {
        return Err(handled.error);
      }
      var (existing, lastSeq, events) := handled.value;
      var persisted := CreateOrAppend(key, existing, lastSeq, events, ctx, fault);
      if persisted.Err? {
        KeyedRefusal(arm, cmd, persisted.error, fault, key, events, old(store.state), old(index), Routes());
        return Err(Store(persisted.error));
      }
      KeyedEffect(arm, cmd, busUp, old(store.state), store.state, old(index), index, published, persisted.value, key,
                  events);
      PublishOrTrace(persisted.value);
      r := Ok(());
    }

    method RunAppendStrict(key: string, cmd: Cmd, ctx: CorrelationContext, fault: Fault)
      returns (r: Result<(), MergerError>)
      requires Valid() && arm.persistMode(cmd) == AppendStrict(key)
      modifies this`nextSeq, this`published, this`unknown, store
      ensures Valid() && KeysKept()
      ensures if r.Ok?
              then TookEffect(arm, cmd, busUp, old(store.state), store.state, old(index), index, old(published),
                              published)
              else Refused(r.error, fault)
      ensures r.Err? ==> RefusedEffect(arm, cmd, r.error, fault, old(Routes()), Routes())
      ensures r == Err(MissingKey) <==> key !in old(index)
      ensures fault.Healthy? ==> (r.Ok? <==> old(Serviceable(cmd)))
      ensures !fault.WriteUnknown? ==> unknown <= old(unknown)
    {
      hide LastSequence;
      hide ValidState;
      hide Fits;
      hide RoutesOf;
      hide Payloads;
      hide StreamOf;
      hide Yield;
      hide EventsOf;
      hide TookEffect;
      hide OpenedOne;
      hide RefusedEffect;
      SameMap(arm, cmd, fault, Routes());
      var handled := HandleAgainstHistory(key, cmd, fault);
      if handled.Err? {
        return Err(handled.error);
      }
      var (id, lastSeq, events) := handled.value;
      var appended := AppendAndTrack(key, id.value, lastSeq.value, events, ctx, fault);
      if appended.Err? {
        KeyedRefusal(arm, cmd, appended.error, fault, key, events, old(store.state), old(index), Routes());
        return Err(Store(appended.error));
      }
      KeyedEffect(arm, cmd, busUp, old(store.state), store.state, old(index), index, published, appended.value, key,
                  events);
      PublishOrTrace(appended.value);
      r := Ok(());
    }

    method HandleOne(cmd: Cmd, ctx: CorrelationContext, fault: Fault) returns (r: Result<(), MergerError>)
      requires Valid()
      modifies this`index, this`nextSeq, this`published, this`unknown, store
      ensures Valid() && KeysKept()
      ensures if r.Ok?
              then TookEffect(arm, cmd, busUp, old(store.state), store.state, old(index), index, old(published),
                              published)
              else Refused(r.error, fault)
      ensures r.Err? ==> RefusedEffect(arm, cmd, r.error, fault, old(Routes()), Routes())
      ensures r == Err(MissingKey) <==> arm.persistMode(cmd).AppendStrict? && arm.persistMode(cmd).key !in old(index)
      ensures fault.Healthy? ==> (r.Ok? <==> old(Serviceable(cmd)))
      ensures !fault.WriteUnknown? ==> unknown <= old(unknown)
    {
      hide ValidState;
      hide Fits;
      hide RoutesOf;
      hide TookEffect;
      hide RefusedEffect;
      hide Room;
      hide Yield;
      match arm.persistMode(cmd) {
        case Create => r := RunCreate(cmd, ctx, fault);
        case CreateOrAppend(key) => r := RunCreateOrAppend(key, cmd, ctx, fault);
        case AppendStrict(key) => r := RunAppendStrict(key, cmd, ctx, fault);
      }
    }

    /** The task loop over whatever the channel delivers. Index and store are the simple map of the
        commands that took effect, in queue order: the accepted ones, and appends to indexed keys that
        landed behind an unknown outcome. With every outcome known those are the accepted commands, the
        streams opened are the ones they open, and the tracker is exact. */
    method Run(queue: seq<Queued<Cmd>>) returns (replies: seq<Result<(), MergerError>>, ghost took: seq<bool>)
      requires Valid()
      modifies this`index, this`nextSeq, this`published, this`unknown, store
      ensures Valid() && KeysKept() && |replies| == |took| == |queue|
      ensures Justified(arm, old(Routes()), Commands(queue), took)
      ensures Routes() == Served(arm, old(Routes()), Commands(queue), took)
      ensures forall i :: 0 <= i < |queue| ==> Took(queue[i], replies[i], took[i])
      ensures OutcomesKnown(queue) ==> took == Oks(replies)
      ensures OutcomesKnown(queue) ==>
        |store.state.streams.Keys|
        == |old(store.state.streams.Keys)| + Openings(arm, old(Routes()), Commands(queue), took)
      ensures OutcomesKnown(queue) && old(unknown) == {} ==> TrackerExact()
    {
      hide Fits;
      hide ValidState;
      hide RoutesOf;
      hide TookEffect;
      hide RefusedEffect;
      hide Yield;
      hide Room;
      hide Accepted;
      hide Opens;
      hide QueueState;
      hide Took;
      replies, took := [], [];
      var i := 0;
      ghost var start, streams := Routes(), |store.state.streams.Keys|;
      StartOfQueue(arm, queue, start);
      while i < |queue|
        invariant 0 <= i <= |queue|
        invariant Valid() && KeysKept()
        invariant QueueState(arm, start, queue, i, replies, took, Routes(), |store.state.streams.Keys| - streams)
        invariant OutcomesKnown(queue) ==> unknown <= old(unknown)
      {
        ghost var st, index', published', routes := store.state, index, published, Routes();
        var r := HandleOne(queue[i].cmd, queue[i].ctx, queue[i].fault);
        if r.Ok? {
          OpenedCounts(arm, queue[i].cmd, busUp, st, store.state, index', index, published', published);
        }
        QueueStep(arm, start, queue, i, replies, took, routes, |st.streams.Keys| - streams,
                  r, Routes(), |store.state.streams.Keys| - streams);
        replies, took := replies + [r], took + [r.Ok? || Routes() != routes];
        i := i + 1;
      }
      EndOfQueue(arm, start, queue, replies, took, Routes(), |store.state.streams.Keys| - streams);
      if OutcomesKnown(queue) && old(unknown) == {} {
        TrackedExactly(store.state, index, nextSeq, unknown);
      }
    }
  }
}
