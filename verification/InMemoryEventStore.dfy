/** The mutex-guarded in-memory event store as an object (`testing.rs` of cherry-pit-core).
    `Uuid::now_v7` is modelled by a counter: identities are non-nil and never repeat. */
module InMemoryEventStores {
  import opened Prelude
  import opened EventStore

  function Draw(first: Uuid, n: nat): seq<Uuid> {
    seq(n, i => first + i)
  }

  class InMemoryEventStore<E(==)> {
    var state: EventStoreState<E>
    var nextUuid: Uuid

    /** Every stream meets the replay contract, and every identity in use was drawn already. */
    ghost predicate Valid()
      reads this
    {
      ValidState(state, nextUuid)
    }

    constructor ()
      ensures Valid() && state == EventStoreState(map[], 1)
    {
      state := EventStoreState(map[], 1);
      nextUuid := 1;
    }

    method Load(id: AggregateId) returns (r: Result<seq<Envelope<E>>, StoreError>)
      ensures ValidStream(id, StreamOf(state, id)) ==> r == Ok(StreamOf(state, id))
      ensures !ValidStream(id, StreamOf(state, id)) ==> r == Err(CorruptData)
    {
      var stream := StreamOf(state, id);
      var valid := ValidateStream(id, stream);
      match valid
      case Ok(_) => r := Ok(stream);
      case Err(_) => r := Err(CorruptData);
    }

    method Create(events: seq<E>, ctx: CorrelationContext)
      returns (r: Result<(AggregateId, seq<Envelope<E>>), StoreError>)
      requires Valid()
      modifies this
      ensures Valid() && Extends(old(state), state)
      ensures (state, r) == EventStore.Create(old(state), events, ctx, Draw(old(nextUuid), |events|))
    {
      CreateKeepsValid(state, events, ctx, nextUuid);
      if events == [] {
        return Err(Infrastructure);
      }
      var id := state.nextId;
      if id == U64_MAX {
        return Err(Infrastructure);
      }
      var ids := Draw(nextUuid, |events|);
      state := state.(nextId := id + 1);
      nextUuid := nextUuid + |events|;
      var built := BuildEnvelopes(id, 0, events, ctx, ids);
      match built
      case Err(e) => r := Err(e);
      case Ok(envelopes) =>
        state := state.(streams := state.streams[id := envelopes]);
        r := Ok((id, envelopes));
    }

    method Append(id: AggregateId, expected: NonZeroU64, events: seq<E>, ctx: CorrelationContext)
      returns (r: Result<seq<Envelope<E>>, StoreError>)
      requires Valid()
      modifies this
      ensures Valid() && Extends(old(state), state)
      ensures (state, r) == EventStore.Append(old(state), id, expected, events, ctx, Draw(old(nextUuid), |events|))
    {
      AppendKeepsValid(state, id, expected, events, ctx, nextUuid);
      if events == [] {
        return Ok([]);
      }
      if id !in state.streams {
        return Err(Infrastructure);
      }
      var stream := state.streams[id];
      var actual := LastSequence(stream);
      if actual != expected {
        return Err(ConcurrencyConflict(id, expected, actual));
      }
      var ids := Draw(nextUuid, |events|);
      nextUuid := nextUuid + |events|;
      var built := BuildEnvelopes(id, expected, events, ctx, ids);
      match built
      case Err(e) => r := Err(e);
      case Ok(envelopes) =>
        state := state.(streams := state.streams[id := stream + envelopes]);
        r := Ok(envelopes);
    }

    /** The prefix of a stream up to and including sequence `upto`. */
    method ReplayUntil(id: AggregateId, upto: NonZeroU64) returns (r: Result<seq<Envelope<E>>, StoreError>)
      requires Valid()
      ensures r == Ok(StreamOf(state, id)[..Min(upto, |StreamOf(state, id)|)])
    {
      var loaded := Load(id);
      var history := loaded.value;
      var kept: seq<Envelope<E>> := [];
      var i := 0;
      while i < |history|
        invariant 0 <= i <= |history|
        invariant kept == history[..Min(upto, i)]
      {
        if history[i].sequence <= upto {
          kept := kept + [history[i]];
        }
        i := i + 1;
      }
      r := Ok(kept);
    }

    /** Walk from `eventId` back through its causes, when that walk ends at all. */
    method CausalChain(id: AggregateId, eventId: Uuid) returns (r: Result<seq<Envelope<E>>, StoreError>)
      requires Valid() && Ends(StreamOf(state, id), eventId)
      ensures r.Ok? && IsCausalChain(StreamOf(state, id), eventId, r.value)
      ensures CausallyOrdered(StreamOf(state, id)) ==> Rising(r.value)
    {
      var loaded := Load(id);
      var chain := WalkCauses(id, loaded.value, eventId);
      r := Ok(chain);
    }
  }

  ghost predicate ValidState<E>(st: EventStoreState<E>, bound: Uuid) {
    && NIL < bound
    && Contiguous(st)
    && forall id :: id in st.streams ==> ValidStream(id, st.streams[id]) && Drawn(st.streams[id], bound)
  }

  lemma CreateKeepsValid<E>(st: EventStoreState<E>, events: seq<E>, ctx: CorrelationContext, first: Uuid)
    requires ValidState(st, first)
    ensures ValidState(Create(st, events, ctx, Draw(first, |events|)).0, first + |events|)
    ensures Extends(st, Create(st, events, ctx, Draw(first, |events|)).0)
  {
    var ids := Draw(first, |events|);
    CreateKeeps(st, events, ctx, ids);
    DrawnBatch<E>(st.nextId, [], first, events, ctx);
    if Buildable(0, events, ids) {
      assert [] + Stamped(st.nextId, 0, events, ctx, ids) == Stamped(st.nextId, 0, events, ctx, ids);
    }
  }

  lemma AppendKeepsValid<E>(st: EventStoreState<E>, id: AggregateId, expected: NonZeroU64, events: seq<E>,
                            ctx: CorrelationContext, first: Uuid)
    requires ValidState(st, first)
    ensures ValidState(Append(st, id, expected, events, ctx, Draw(first, |events|)).0, first + |events|)
    ensures Extends(st, Append(st, id, expected, events, ctx, Draw(first, |events|)).0)
  {
    var ids := Draw(first, |events|);
    AppendKeeps(st, id, expected, events, ctx, ids);
    if events != [] && Append(st, id, expected, events, ctx, ids).1.Ok? {
      assert expected == |st.streams[id]|;
      DrawnBatch(id, st.streams[id], first, events, ctx);
    }
  }

  /** Every identity of the stream is below `bound`. */
  ghost predicate Drawn<E>(stream: seq<Envelope<E>>, bound: Uuid) {
    forall i {:trigger stream[i].eventId} :: 0 <= i < |stream| ==> stream[i].eventId < bound
  }

  /** A batch stamped with the next drawn identities keeps the stream valid. */
  lemma DrawnBatch<E>(id: AggregateId, stream: seq<Envelope<E>>, first: Uuid, events: seq<E>, ctx: CorrelationContext)
    requires NIL < first && |stream| <= U64_MAX && ValidStream(id, stream) && Drawn(stream, first)
    ensures Buildable(|stream|, events, Draw(first, |events|)) ==>
      var longer := stream + Stamped(id, |stream|, events, ctx, Draw(first, |events|));
      ValidStream(id, longer) && Drawn(longer, first + |events|)
  {
  }

  // ---------------------------------------------------------------------
  // Causal chains
  // ---------------------------------------------------------------------

  /** Position of the first envelope with identity `x`, restricted to `correlation` when that is set. */
  function FindEvent<E>(history: seq<Envelope<E>>, x: Uuid, correlation: Option<Uuid>): (r: Option<nat>)
    ensures r.Some? ==> r.value < |history| && Matches(history[r.value], x, correlation)
    ensures r.None? ==> forall i :: 0 <= i < |history| ==> !Matches(history[i], x, correlation)
  {
    if history == [] then None
    else if Matches(history[0], x, correlation) then Some(0)
    else
      match FindEvent(history[1..], x, correlation)
      case None => None
      case Some(i) => Some(i + 1)
  }

  predicate Matches<E>(envelope: Envelope<E>, x: Uuid, correlation: Option<Uuid>) {
    envelope.eventId == x && (correlation.None? || envelope.correlationId == correlation)
  }

  /** Stored envelopes, each naming its predecessor as cause. */
  ghost predicate Linked<E>(history: seq<Envelope<E>>, chain: seq<Envelope<E>>) {
    && (forall i :: 0 <= i < |chain| ==> chain[i] in history)
    && (forall i :: 0 <= i < |chain| - 1 ==> chain[i + 1].causationId == Some(chain[i].eventId))
  }

  ghost predicate Rising<E>(chain: seq<Envelope<E>>) {
    forall i :: 0 <= i < |chain| - 1 ==> chain[i].sequence < chain[i + 1].sequence
  }

  ghost predicate Correlated<E>(correlation: Option<Uuid>, chain: seq<Envelope<E>>) {
    correlation.Some? ==> forall i :: 0 <= i < |chain| ==> chain[i].correlationId == correlation
  }

  /** The whole chain ending at `eventId`: linked, within one correlation, rooted where no cause is
      stored any more, and present exactly when the event is. */
  ghost predicate IsCausalChain<E>(history: seq<Envelope<E>>, eventId: Uuid, chain: seq<Envelope<E>>) {
    && Linked(history, chain)
    && (chain == [] <==> forall e :: e in history ==> e.eventId != eventId)
    && (chain != [] ==>
          && chain[|chain| - 1].eventId == eventId
          && Correlated(chain[|chain| - 1].correlationId, chain)
          && (chain[0].causationId.Some? ==>
                forall e :: e in history ==>
                  !Matches(e, chain[0].causationId.value, chain[|chain| - 1].correlationId)))
  }

  function CorrelationOf<E>(history: seq<Envelope<E>>, eventId: Uuid): Option<Uuid> {
    var first := FindEvent(history, eventId, None);
    if first.Some? then history[first.value].correlationId else None
  }

  /** The position after `n` hops back from the requested event, none once the walk has ended. */
  function Hops<E>(history: seq<Envelope<E>>, eventId: Uuid, n: nat): (r: Option<nat>)
    ensures r.Some? ==> r.value < |history|
  {
    var correlation := CorrelationOf(history, eventId);
    if n == 0 then FindEvent(history, eventId, correlation) else
    match Hops(history, eventId, n - 1)
    case None => None
    case Some(i) =>
      if history[i].causationId.None? then None
      else FindEvent(history, history[i].causationId.value, correlation)
  }

  /** The walk is over after at most one hop per stored envelope. */
  predicate Ends<E>(history: seq<Envelope<E>>, eventId: Uuid) {
    Hops(history, eventId, |history|).None?
  }

  method WalkCauses<E>(id: AggregateId, history: seq<Envelope<E>>, eventId: Uuid) returns (chain: seq<Envelope<E>>)
    requires ValidStream(id, history) && Ends(history, eventId)
    ensures IsCausalChain(history, eventId, chain)
    ensures CausallyOrdered(history) ==> Rising(chain)
  {
    var first := FindEvent(history, eventId, None);
    var correlation := if first.Some? then history[first.value].correlationId else None;
    chain := [];
    var next := Some(eventId);
    ghost var n := 0;
    while next.Some?
      invariant n <= |history| && |chain| == n
      invariant n == 0 ==> next == Some(eventId)
      invariant n > 0 ==>
        Hops(history, eventId, n - 1).Some? && chain[0] == history[Hops(history, eventId, n - 1).value]
      invariant n > 0 ==> next == chain[0].causationId && first.Some?
      invariant Linked(history, chain) && Correlated(correlation, chain)
      invariant CausallyOrdered(history) ==> Rising(chain)
      invariant n > 0 ==> chain[n - 1].eventId == eventId && chain[n - 1].correlationId == correlation
      decreases next.Some?, |history| - n
    {
      var found := FindEvent(history, next.value, correlation);
      assert found == Hops(history, eventId, n);
      if found.None? {
        break;
      }
      StillWalking(history, eventId, n);
      ExtendChain(id, history, chain, found.value);
      next := history[found.value].causationId;
      chain := [history[found.value]] + chain;
      n := n + 1;
    }
    RootedChain(history, eventId, chain, correlation);
  }

  /** One hop back extends the chain at its front, at a smaller sequence when causes precede effects. */
  lemma ExtendChain<E>(id: AggregateId, history: seq<Envelope<E>>, chain: seq<Envelope<E>>, found: nat)
    requires ValidStream(id, history) && Linked(history, chain) && found < |history|
    requires |chain| > 0 ==> chain[0] in history && chain[0].causationId == Some(history[found].eventId)
    ensures Linked(history, [history[found]] + chain)
    ensures CausallyOrdered(history) && Rising(chain) ==> Rising([history[found]] + chain)
  {
    if |chain| > 0 {
      var i :| 0 <= i < |history| && history[i] == chain[0];
      assert CausallyOrdered(history) ==> found < i;
    }
  }

  lemma {:induction false} EndedStaysEnded<E>(history: seq<Envelope<E>>, eventId: Uuid, n: nat, m: nat)
    requires n <= m && Hops(history, eventId, n).None?
    ensures Hops(history, eventId, m).None?
  {
    if n < m {
      EndedStaysEnded(history, eventId, n, m - 1);
    }
  }

  lemma StillWalking<E>(history: seq<Envelope<E>>, eventId: Uuid, n: nat)
    requires Ends(history, eventId) && Hops(history, eventId, n).Some?
    ensures n < |history|
  {
    if |history| <= n {
      EndedStaysEnded(history, eventId, |history|, n);
    }
  }

  // ---------------------------------------------------------------------
  // When the walk ends
  // ---------------------------------------------------------------------

  lemma {:induction false} HopsFall<E>(id: AggregateId, history: seq<Envelope<E>>, eventId: Uuid, n: nat)
    requires ValidStream(id, history) && CausallyOrdered(history) && Hops(history, eventId, n).Some?
    ensures Hops(history, eventId, n).value + n < |history|
  {
    if n > 0 {
      HopsFall(id, history, eventId, n - 1);
    }
  }

  /** When causes precede effects the walk ends; `ReachableStoresAreSound` gives that for every store
      built with fresh identities. */
  lemma OrderedCausesEnd<E>(id: AggregateId, history: seq<Envelope<E>>, eventId: Uuid)
    requires ValidStream(id, history) && CausallyOrdered(history)
    ensures Ends(history, eventId)
  {
    if Hops(history, eventId, |history|).Some? {
      HopsFall(id, history, eventId, |history|);
    }
  }

  lemma {:induction false} Repeats<E>(history: seq<Envelope<E>>, eventId: Uuid, i: nat, j: nat, n: nat)
    requires i < j && Hops(history, eventId, i).Some? && Hops(history, eventId, i) == Hops(history, eventId, j)
    ensures Hops(history, eventId, n).Some?
  {
    hide Hops;
    if n <= j {
      if Hops(history, eventId, n).None? {
        EndedStaysEnded(history, eventId, n, j);
      }
    } else {
      Repeats(history, eventId, i, j, n - (j - i));
      Shifted(history, eventId, i, j, n - j);
    }
  }

  lemma {:induction false} Shifted<E>(history: seq<Envelope<E>>, eventId: Uuid, i: nat, j: nat, k: nat)
    requires Hops(history, eventId, i) == Hops(history, eventId, j)
    ensures Hops(history, eventId, i + k) == Hops(history, eventId, j + k)
  {
    hide FindEvent;
    hide CorrelationOf;
    if k > 0 {
      Shifted(history, eventId, i, j, k - 1);
    }
  }

  /** Among more than `m` numbers below `m` two are equal. */
  lemma {:induction false} Pigeonhole(p: seq<nat>, m: nat) returns (i: nat, j: nat)
    requires |p| > m && forall k :: 0 <= k < |p| ==> p[k] < m
    ensures i < j < |p| && p[i] == p[j]
    decreases m
  {
    var n := |p| - 1;
    if k :| 0 <= k < n && p[k] == p[n] {
      i, j := k, n;
    } else {
      var q := seq(n, k requires 0 <= k < n => if p[k] == m - 1 then p[n] else p[k]);
      i, j := Pigeonhole(q, m - 1);
    }
  }

  /** The walk ends at some point if and only if it ends within one hop per stored envelope; otherwise
      it goes round for ever. */
  lemma WalkEndsExactlyWhen<E>(history: seq<Envelope<E>>, eventId: Uuid)
    ensures Ends(history, eventId) <==> exists n: nat :: Hops(history, eventId, n).None?
  {
    var m := |history|;
    hide Hops;
    if Ends(history, eventId) {
      assert Hops(history, eventId, m).None?;
    } else {
      forall n: nat | n <= m ensures Hops(history, eventId, n).Some? {
        if Hops(history, eventId, n).None? {
          EndedStaysEnded(history, eventId, n, m);
        }
      }
      var p: seq<nat> := seq(m + 1, n requires 0 <= n <= m => Hops(history, eventId, n).value);
      var i, j := Pigeonhole(p, m);
      assert p[i] == p[j];
      forall n: nat ensures Hops(history, eventId, n).Some? {
        Repeats(history, eventId, i, j, n);
      }
    }
  }

  /** Two envelopes that name each other as cause pass validation, and the walk between them never ends. */
  lemma CyclicCausesNeverEnd<E>(id: AggregateId, a: Uuid, b: Uuid, payload: E) returns (history: seq<Envelope<E>>)
    requires a != NIL && b != NIL && a != b
    ensures ValidStream(id, history) && !Ends(history, a) && forall n: nat :: Hops(history, a, n).Some?
  {
    history := [Envelope(a, id, 1, None, Some(b), payload), Envelope(b, id, 2, None, Some(a), payload)];
    assert FindEvent(history, a, None) == Some(0);
    assert Matches(history[1], b, None) && !Matches(history[0], b, None);
    assert FindEvent(history, b, None) == Some(1);
    assert Hops(history, a, 0) == Some(0) && Hops(history, a, 1) == Some(1) && Hops(history, a, 2) == Some(0);
    WalkEndsExactlyWhen(history, a);
  }

  lemma RootedChain<E>(history: seq<Envelope<E>>, eventId: Uuid, chain: seq<Envelope<E>>, correlation: Option<Uuid>)
    requires Linked(history, chain) && Correlated(correlation, chain)
    requires |chain| > 0 ==> chain[|chain| - 1].eventId == eventId && chain[|chain| - 1].correlationId == correlation
    requires var next := if chain == [] then Some(eventId) else chain[0].causationId;
      next.Some? ==> FindEvent(history, next.value, correlation).None?
    requires var first := FindEvent(history, eventId, None);
      correlation == if first.Some? then history[first.value].correlationId else None
    ensures IsCausalChain(history, eventId, chain)
  {
  }
}
