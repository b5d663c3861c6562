/** The persistent projection store (pardosa-cherry-pit-projection): a snapshot record and a
    checkpoint record per aggregate, written in a crash-safe order onto an append-only log. */
module ProjectionStores {
  import opened Prelude

  const SNAPSHOT_BYTES_MAX := 262_144

  type Bytes = seq<bv8>

  datatype Kind = SnapshotKind | CheckpointKind

  /** `upTo` is the sequence of the persist call that wrote the snapshot. The stored record does not
      carry it; here it says which call a snapshot came from. */
  datatype Record =
    | Tombstone(aggregate: U64, name: string, kind: Kind)
    | Snapshot(aggregate: U64, name: string, bytes: Bytes, upTo: NonZeroU64)
    | Checkpoint(aggregate: U64, name: string, lastSequence: U64)

  function KindOf(record: Record): Kind {
    match record
    case Tombstone(_, _, kind) => kind
    case Snapshot(_, _, _, _) => SnapshotKind
    case Checkpoint(_, _, _) => CheckpointKind
  }

  datatype ProjectionError =
    | Infrastructure
    | CorruptData
    | CheckpointRegression(existing: NonZeroU64, attempted: NonZeroU64)
    | Indeterminate

  // ---------------------------------------------------------------------
  // Fiber keys
  // ---------------------------------------------------------------------

  function Digit(d: nat): char
    requires d < 10
  {
    "0123456789"[d]
  }

  function Decimal(n: nat): string {
    if n < 10 then [Digit(n)] else Decimal(n / 10) + [Digit(n % 10)]
  }

  function Suffix(kind: Kind): string {
    match kind
    case SnapshotKind => ":snapshot"
    case CheckpointKind => ":checkpoint"
  }

  /** `snapshot_key` and `checkpoint_key`. */
  function FiberKey(aggregate: nat, name: string, kind: Kind): string {
    Decimal(aggregate) + ":" + (name + Suffix(kind))
  }

  function ReadDecimal(s: string): int {
    if s == [] then 0 else 10 * ReadDecimal(s[..|s| - 1]) + (s[|s| - 1] as int - '0' as int)
  }

  lemma {:induction false} DecimalReads(n: nat)
    ensures ReadDecimal(Decimal(n)) == n && ':' !in Decimal(n)
  {
    if n < 10 {
      assert Decimal(n)[..0] == [];
    } else {
      DecimalReads(n / 10);
      assert Decimal(n)[..|Decimal(n)| - 1] == Decimal(n / 10);
    }
  }

  lemma {:induction false} ColonSplits(a: string, x: string, b: string, y: string)
    requires a + ":" + x == b + ":" + y && ':' !in a && ':' !in b
    ensures a == b && x == y
  {
    var s := a + ":" + x;
    assert s[|a|] == ':' && s[|b|] == ':';
    assert forall i :: 0 <= i < |a| ==> s[i] == a[i];
    assert forall i :: 0 <= i < |b| ==> s[i] == b[i];
    assert |a| == |b|;
    assert a == s[..|a|] && b == s[..|a|];
    assert x == s[|a| + 1..] && y == s[|a| + 1..];
  }

  lemma SuffixSplits(m: string, j: Kind, n: string, k: Kind)
    requires m + Suffix(j) == n + Suffix(k)
    ensures m == n && j == k
  {
    var s := m + Suffix(j);
    assert s[|s| - 2] == Suffix(j)[|Suffix(j)| - 2] == Suffix(k)[|Suffix(k)| - 2];
    assert m == s[..|s| - |Suffix(j)|] && n == s[..|s| - |Suffix(k)|];
  }

  /** Distinct triples get distinct keys, whatever colons the projection names contain. */
  lemma KeysAreInjective(a: nat, m: string, j: Kind, b: nat, n: string, k: Kind)
    ensures FiberKey(a, m, j) == FiberKey(b, n, k) <==> a == b && m == n && j == k
  {
    hide Decimal;
    hide ReadDecimal;
    hide Suffix;
    if FiberKey(a, m, j) == FiberKey(b, n, k) {
      DecimalReads(a);
      DecimalReads(b);
      ColonSplits(Decimal(a), m + Suffix(j), Decimal(b), n + Suffix(k));
      SuffixSplits(m, j, n, k);
    }
  }

  // ---------------------------------------------------------------------
  // The log and its fibers
  // ---------------------------------------------------------------------

  datatype Entry =
    | Append(fiber: string, record: Record)
    | Rescue(fiber: string, record: Record)
    | Detach(fiber: string, record: Record)

  datatype Fiber = Absent | Active(latest: Record) | Detached

  function FiberOf(log: seq<Entry>, fiber: string): Fiber {
    if log == [] then Absent else
    var last := log[|log| - 1];
    if last.fiber != fiber then FiberOf(log[..|log| - 1], fiber)
    else if last.Detach? then Detached
    else Active(last.record)
  }

  function Fate(log: seq<Entry>, aggregate: nat, name: string, kind: Kind): Fiber {
    FiberOf(log, FiberKey(aggregate, name, kind))
  }

  /** The active checkpoint's sequence, zero when there is none. */
  function CheckpointOf(log: seq<Entry>, aggregate: nat, name: string): U64 {
    match Fate(log, aggregate, name, CheckpointKind)
    case Active(Checkpoint(_, _, sequence)) => sequence
    case _ => 0
  }

  /** What may follow a log: a record on its own fiber, appended or rescued as the fiber's life cycle
      demands; a snapshot never older than the checkpoint; a checkpoint that does not regress and that
      an active snapshot covers; the checkpoint detached before the snapshot. */
  predicate Allowed(log: seq<Entry>, e: Entry) {
    match e.record
    case Snapshot(a, m, _, upTo) =>
      && e.fiber == FiberKey(a, m, SnapshotKind) && !e.Detach?
      && (e.Rescue? <==> FiberOf(log, e.fiber).Detached?)
      && CheckpointOf(log, a, m) <= upTo
    case Checkpoint(a, m, sequence) =>
      && e.fiber == FiberKey(a, m, CheckpointKind) && !e.Detach?
      && (e.Rescue? <==> FiberOf(log, e.fiber).Detached?)
      && 0 < sequence && CheckpointOf(log, a, m) <= sequence
      && var snapshot := Fate(log, a, m, SnapshotKind);
      && snapshot.Active? && snapshot.latest.Snapshot? && sequence <= snapshot.latest.upTo
    case Tombstone(a, m, kind) =>
      && e.fiber == FiberKey(a, m, kind) && e.Detach? && FiberOf(log, e.fiber).Active?
      && (kind.SnapshotKind? ==> !Fate(log, a, m, CheckpointKind).Active?)
  }

  ghost predicate Protocol(log: seq<Entry>) {
    forall n :: 0 <= n < |log| ==> Allowed(log[..n], log[n])
  }

  lemma ProtocolPrefix(log: seq<Entry>, n: nat)
    requires Protocol(log) && n <= |log|
    ensures Protocol(log[..n])
  {
    forall i | 0 <= i < n ensures Allowed(log[..n][..i], log[..n][i]) {
      assert log[..n][..i] == log[..i];
      assert Allowed(log[..i], log[i]);
    }
  }

  lemma ProtocolExtends(log: seq<Entry>, e: Entry)
    requires Protocol(log) && Allowed(log, e)
    ensures Protocol(log + [e])
  {
    forall i | 0 <= i <= |log| ensures Allowed((log + [e])[..i], (log + [e])[i]) {
      assert (log + [e])[..i] == log[..i];
      assert i == |log| ==> log[..i] == log;
    }
  }

  /** The records of one aggregate fit together: an active checkpoint is a checkpoint of that very
      aggregate and projection, with an active snapshot persisted for a sequence no smaller. */
  ghost predicate Covered(log: seq<Entry>, a: nat, m: string) {
    var snapshot, checkpoint := Fate(log, a, m, SnapshotKind), Fate(log, a, m, CheckpointKind);
    && (snapshot.Active? ==> snapshot.latest.Snapshot? && snapshot.latest.aggregate == a && snapshot.latest.name == m)
    && (checkpoint.Active? ==>
          && checkpoint.latest.Checkpoint? && checkpoint.latest.aggregate == a && checkpoint.latest.name == m
          && 0 < checkpoint.latest.lastSequence
          && snapshot.Active? && checkpoint.latest.lastSequence <= snapshot.latest.upTo)
  }

  lemma CoveredStep(log: seq<Entry>, e: Entry, a: nat, m: string)
    requires Covered(log, a, m) && Allowed(log, e)
    ensures Covered(log + [e], a, m)
  {
    assert (log + [e])[..|log|] == log;
    KeysAreInjective(e.record.aggregate, e.record.name, KindOf(e.record), a, m, SnapshotKind);
    KeysAreInjective(e.record.aggregate, e.record.name, KindOf(e.record), a, m, CheckpointKind);
    hide FiberKey;
  }

  /** The promise of the write order, for every log the protocol can produce. */
  lemma {:induction false} ActiveCheckpointIsCovered(log: seq<Entry>, a: nat, m: string)
    requires Protocol(log)
    ensures Covered(log, a, m)
  {
    hide FiberKey;
    if log != [] {
      hide Covered;
      hide Allowed;
      var n := |log| - 1;
      ProtocolPrefix(log, n);
      ActiveCheckpointIsCovered(log[..n], a, m);
      assert Allowed(log[..n], log[n]);
      CoveredStep(log[..n], log[n], a, m);
      assert log[..n] + [log[n]] == log;
    }
  }

  /** Unless it detaches the checkpoint, an entry leaves it as it is or raises it. */
  lemma CheckpointStep(log: seq<Entry>, e: Entry, a: nat, m: string)
    requires Allowed(log, e) && !(e.Detach? && e.fiber == FiberKey(a, m, CheckpointKind))
    ensures CheckpointOf(log, a, m) <= CheckpointOf(log + [e], a, m)
  {
    assert (log + [e])[..|log|] == log;
    KeysAreInjective(e.record.aggregate, e.record.name, KindOf(e.record), a, m, CheckpointKind);
    hide FiberKey;
  }

  /** While a checkpoint is not detached it never decreases. */
  lemma {:induction false} CheckpointNeverDecreases(log: seq<Entry>, n: nat, a: nat, m: string)
    requires Protocol(log) && n <= |log|
    requires forall i :: n <= i < |log| ==> !(log[i].Detach? && log[i].fiber == FiberKey(a, m, CheckpointKind))
    ensures CheckpointOf(log[..n], a, m) <= CheckpointOf(log, a, m)
    decreases |log|
  {
    hide CheckpointOf;
    hide FiberKey;
    if n == |log| {
      assert log[..n] == log;
    } else {
      var k := |log| - 1;
      ProtocolPrefix(log, k);
      assert log[..k][..n] == log[..n];
      CheckpointNeverDecreases(log[..k], n, a, m);
      assert log[..k] + [log[k]] == log;
      CheckpointStep(log[..k], log[k], a, m);
    }
  }

  // ---------------------------------------------------------------------
  // The two write sequences
  // ---------------------------------------------------------------------

  function Put(log: seq<Entry>, record: Record): Entry {
    var fiber := FiberKey(record.aggregate, record.name, KindOf(record));
    if FiberOf(log, fiber).Detached? then Rescue(fiber, record) else Append(fiber, record)
  }

  function AfterSnapshot(log: seq<Entry>, a: NonZeroU64, m: string, bytes: Bytes, sequence: NonZeroU64): seq<Entry> {
    log + [Put(log, Snapshot(a, m, bytes, sequence))]
  }

  function AfterPersist(log: seq<Entry>, a: NonZeroU64, m: string, bytes: Bytes, sequence: NonZeroU64): seq<Entry> {
    var half := AfterSnapshot(log, a, m, bytes, sequence);
    half + [Put(half, Checkpoint(a, m, sequence))]
  }

  function Without(log: seq<Entry>, a: NonZeroU64, m: string, kind: Kind): seq<Entry> {
    if Fate(log, a, m, kind).Active? then log + [Detach(FiberKey(a, m, kind), Tombstone(a, m, kind))] else log
  }

  function AfterDelete(log: seq<Entry>, a: NonZeroU64, m: string): seq<Entry> {
    Without(Without(log, a, m, CheckpointKind), a, m, SnapshotKind)
  }

  /** One entry decides its own fiber and no other. */
  lemma FateAfter(log: seq<Entry>, e: Entry, a: nat, m: string, kind: Kind)
    requires e.fiber == FiberKey(e.record.aggregate, e.record.name, KindOf(e.record))
    ensures Fate(log + [e], a, m, kind) ==
      if e.record.aggregate != a || e.record.name != m || KindOf(e.record) != kind then Fate(log, a, m, kind)
      else if e.Detach? then Detached
      else Active(e.record)
  {
    assert (log + [e])[..|log|] == log;
    KeysAreInjective(e.record.aggregate, e.record.name, KindOf(e.record), a, m, kind);
  }

  lemma SnapshotAllowed(log: seq<Entry>, a: NonZeroU64, m: string, bytes: Bytes, sequence: NonZeroU64)
    requires Protocol(log) && CheckpointOf(log, a, m) <= sequence
    ensures Allowed(log, Put(log, Snapshot(a, m, bytes, sequence)))
    ensures Protocol(AfterSnapshot(log, a, m, bytes, sequence))
  {
    ProtocolExtends(log, Put(log, Snapshot(a, m, bytes, sequence)));
  }

  lemma CheckpointAllowed(log: seq<Entry>, a: NonZeroU64, m: string, bytes: Bytes, sequence: NonZeroU64)
    requires Protocol(log) && CheckpointOf(log, a, m) <= sequence
    ensures var half := AfterSnapshot(log, a, m, bytes, sequence); Allowed(half, Put(half, Checkpoint(a, m, sequence)))
    ensures Protocol(AfterPersist(log, a, m, bytes, sequence))
  {
    SnapshotAllowed(log, a, m, bytes, sequence);
    var e, half := Put(log, Snapshot(a, m, bytes, sequence)), AfterSnapshot(log, a, m, bytes, sequence);
    FateAfter(log, e, a, m, SnapshotKind);
    FateAfter(log, e, a, m, CheckpointKind);
    hide FiberKey;
    ProtocolExtends(half, Put(half, Checkpoint(a, m, sequence)));
  }

  lemma CheckpointDetachAllowed(log: seq<Entry>, a: NonZeroU64, m: string)
    requires Protocol(log)
    ensures Fate(log, a, m, CheckpointKind).Active? ==>
      Allowed(log, Detach(FiberKey(a, m, CheckpointKind), Tombstone(a, m, CheckpointKind)))
    ensures Protocol(Without(log, a, m, CheckpointKind))
  {
    if Fate(log, a, m, CheckpointKind).Active? {
      ProtocolExtends(log, Detach(FiberKey(a, m, CheckpointKind), Tombstone(a, m, CheckpointKind)));
    }
  }

  lemma SnapshotDetachAllowed(log: seq<Entry>, a: NonZeroU64, m: string)
    requires Protocol(log) && !Fate(log, a, m, CheckpointKind).Active?
    ensures Fate(log, a, m, SnapshotKind).Active? ==>
      Allowed(log, Detach(FiberKey(a, m, SnapshotKind), Tombstone(a, m, SnapshotKind)))
    ensures Protocol(Without(log, a, m, SnapshotKind))
  {
    if Fate(log, a, m, SnapshotKind).Active? {
      ProtocolExtends(log, Detach(FiberKey(a, m, SnapshotKind), Tombstone(a, m, SnapshotKind)));
    }
  }

  /** What a completed persist is for: its snapshot and checkpoint read back, and every other
      aggregate and projection reads as before. */
  lemma PersistReadsBack(log: seq<Entry>, a: NonZeroU64, m: string, bytes: Bytes, sequence: NonZeroU64, b: nat,
                         n: string, kind: Kind)
    ensures var log' := AfterPersist(log, a, m, bytes, sequence);
      && Fate(log', a, m, SnapshotKind) == Active(Snapshot(a, m, bytes, sequence))
      && CheckpointOf(log', a, m) == sequence
      && (b != a || n != m ==> Fate(log', b, n, kind) == Fate(log, b, n, kind))
  {
    var e, half := Put(log, Snapshot(a, m, bytes, sequence)), AfterSnapshot(log, a, m, bytes, sequence);
    var f := Put(half, Checkpoint(a, m, sequence));
    FateAfter(log, e, a, m, SnapshotKind);
    FateAfter(half, f, a, m, SnapshotKind);
    FateAfter(half, f, a, m, CheckpointKind);
    FateAfter(log, e, b, n, kind);
    FateAfter(half, f, b, n, kind);
    hide Fate;
    hide Put;
  }

  /** Detaching one record silences it and leaves every other one alone. */
  lemma WithoutReads(log: seq<Entry>, a: NonZeroU64, m: string, gone: Kind, b: nat, n: string, kind: Kind)
    ensures var log' := Without(log, a, m, gone);
      && !Fate(log', a, m, gone).Active?
      && (b != a || n != m || kind != gone ==> Fate(log', b, n, kind) == Fate(log, b, n, kind))
  {
    var e := Detach(FiberKey(a, m, gone), Tombstone(a, m, gone));
    FateAfter(log, e, a, m, gone);
    FateAfter(log, e, b, n, kind);
    hide Fate;
  }

  lemma DeleteReadsBack(log: seq<Entry>, a: NonZeroU64, m: string, b: nat, n: string, kind: Kind)
    ensures var log' := AfterDelete(log, a, m);
      && !Fate(log', a, m, SnapshotKind).Active? && !Fate(log', a, m, CheckpointKind).Active?
      && (b != a || n != m ==> Fate(log', b, n, kind) == Fate(log, b, n, kind))
  {
    var half := Without(log, a, m, CheckpointKind);
    WithoutReads(log, a, m, CheckpointKind, b, n, kind);
    WithoutReads(half, a, m, SnapshotKind, a, m, CheckpointKind);
    WithoutReads(half, a, m, SnapshotKind, b, n, kind);
    hide Fate;
    hide Without;
  }

  // ---------------------------------------------------------------------
  // The session and the store
  // ---------------------------------------------------------------------

  datatype WriteIo = Lands | WriteFails | Unknown(landed: bool)

  datatype Verdict = Landed | Undetermined

  /** What the medium does to each call of one persist. */
  datatype PersistIo = PersistIo(load: bool, snapshotFiber: bool, snapshotWrite: WriteIo,
                                 checkpointFiber: bool, checkpointWrite: WriteIo, sync: bool)

  datatype DeleteIo = DeleteIo(checkpointFiber: bool, checkpointDetach: WriteIo,
                               snapshotFiber: bool, snapshotDetach: WriteIo, sync: bool)

  /** The Pardosa writer session: an append-only log, the part of it known to be on disk, and the
      sticky mark an undetermined write leaves. */
  class FileWriterSession {
    var log: seq<Entry>
    var synced: nat
    var uncertain: bool
    /** Reads and writes of records so far. */
    ghost var touches: nat

    ghost predicate Valid()
      reads this
    {
      Protocol(log) && synced <= |log|
    }

    ghost function State(): SessionState
      reads this
    {
      SessionState(log, synced, uncertain, touches)
    }

    /** Created empty, or reopened from what survived of an earlier session's log. */
    constructor (recovered: seq<Entry>)
      requires Protocol(recovered)
      ensures Valid() && State() == SessionState(recovered, |recovered|, false, 0)
    {
      log := recovered;
      synced := |recovered|;
      uncertain := false;
      touches := 0;
    }

    method GetFiber(fiber: string, ok: bool) returns (r: Result<Fiber, ProjectionError>)
      modifies this`touches
      ensures touches == old(touches) + 1
      ensures r == if ok then Ok(FiberOf(log, fiber)) else Err(Infrastructure)
    {
      touches := touches + 1;
      r := if ok then Ok(FiberOf(log, fiber)) else Err(Infrastructure);
    }

    method Write(e: Entry, io: WriteIo) returns (r: Result<Verdict, ProjectionError>)
      requires Valid() && Allowed(log, e)
      modifies this`log, this`uncertain, this`touches
      ensures Valid() && touches == old(touches) + 1
      ensures io == Lands || io == Unknown(true) ==> log == old(log) + [e]
      ensures io == WriteFails || io == Unknown(false) ==> log == old(log)
      ensures r == match io
        case Lands => Ok(Landed)
        case WriteFails => Err(Infrastructure)
        case Unknown(_) => Ok(Undetermined)
      ensures uncertain == (old(uncertain) || io.Unknown?)
    {
      ProtocolExtends(log, e);
      touches := touches + 1;
      match io {
        case Lands =>
          log := log + [e];
          r := Ok(Landed);
        case WriteFails =>
          r := Err(Infrastructure);
        case Unknown(landed) =>
          if landed {
            log := log + [e];
          }
          uncertain := true;
          r := Ok(Undetermined);
      }
    }

    method Sync(ok: bool) returns (r: Result<(), ProjectionError>)
      requires Valid()
      modifies this`synced
      ensures Valid()
      ensures ok ==> r == Ok(()) && synced == |log|
      ensures !ok ==> r == Err(Infrastructure) && synced == old(synced)
    {
      if !ok {
        return Err(Infrastructure);
      }
      synced := |log|;
      r := Ok(());
    }
  }

  /** `require_landed`. */
  function RequireLanded(verdict: Result<Verdict, ProjectionError>): Result<(), ProjectionError> {
    match verdict
    case Ok(Landed) => Ok(())
    case Ok(Undetermined) => Err(Indeterminate)
    case Err(error) => Err(error)
  }

  /** A checkpoint record that does not belong where it was found. */
  predicate Foreign(fate: Fiber, a: NonZeroU64, m: string) {
    && fate.Active? && fate.latest.Checkpoint?
    && (fate.latest.lastSequence == 0 || fate.latest.aggregate != a || fate.latest.name != m)
  }

  class PardosaProjectionStore {
    const session: FileWriterSession
    const name: string
    var poisoned: bool

    constructor (session: FileWriterSession, name: string)
      ensures this.session == session && this.name == name && !poisoned
    {
      this.session := session;
      this.name := name;
      this.poisoned := false;
    }

    ghost predicate Ready()
      reads this, session
    {
      !poisoned && !session.uncertain
    }

    /** A poisoned or uncertain session is refused before any record is read or written. */
    method ReadySession() returns (r: Result<(), ProjectionError>)
      ensures r == if poisoned then Err(Infrastructure) else if session.uncertain then Err(Indeterminate) else Ok(())
    {
      if poisoned {
        return Err(Infrastructure);
      }
      r := if session.uncertain then Err(Indeterminate) else Ok(());
    }

    /** A stored checkpoint with no sequence or for another aggregate or projection is corrupt data; on
        a log this protocol wrote there is none. */
    method LoadCheckpointFromSession(a: NonZeroU64, ok: bool) returns (r: Result<Option<NonZeroU64>, ProjectionError>)
      modifies session`touches
      ensures old(session.touches) < session.touches
      ensures !ok ==> r == Err(Infrastructure)
      ensures ok ==> (r == Err(CorruptData) <==> Foreign(Fate(session.log, a, name, CheckpointKind), a, name))
      ensures ok && r.Err? ==> r.error == CorruptData
      ensures r.Ok? ==> CheckpointOf(session.log, a, name) == if r.value.Some? then r.value.value else 0
      ensures ok && Protocol(session.log) ==>
        r.Ok? && (r.value.Some? <==> Fate(session.log, a, name, CheckpointKind).Active?)
    {
      if Protocol(session.log) {
        ActiveCheckpointIsCovered(session.log, a, name);
      }
      hide Protocol;
      var fiber := session.GetFiber(FiberKey(a, name, CheckpointKind), ok);
      if fiber.Err? {
        return Err(fiber.error);
      }
      if !fiber.value.Active? {
        return Ok(None);
      }
      match fiber.value.latest {
        case Checkpoint(aggregate, found, lastSequence) =>
          if lastSequence == 0 || aggregate == 0 || aggregate != a || found != name {
            return Err(CorruptData);
          }
          r := Ok(Some(lastSequence));
        case _ =>
          r := Ok(None);
      }
    }

    method LoadCheckpoint(a: NonZeroU64, ok: bool) returns (r: Result<Option<NonZeroU64>, ProjectionError>)
      requires session.Valid()
      modifies session`touches
      ensures poisoned ==> r == Err(Infrastructure) && session.touches == old(session.touches)
      ensures !poisoned && session.uncertain ==> r == Err(Indeterminate) && session.touches == old(session.touches)
      ensures Ready() && ok ==>
        r.Ok? && CheckpointOf(session.log, a, name) == if r.value.Some? then r.value.value else 0
      ensures !poisoned ==> Next(old(session.State()), Loading, session.State())
    {
      var ready := ReadySession();
      if ready.Err? {
        return Err(ready.error);
      }
      r := LoadCheckpointFromSession(a, ok);
    }

    method LoadSnapshot(a: NonZeroU64, ok: bool) returns (r: Result<Option<Bytes>, ProjectionError>)
      requires session.Valid()
      modifies session`touches
      ensures poisoned ==> r == Err(Infrastructure) && session.touches == old(session.touches)
      ensures !poisoned && session.uncertain ==> r == Err(Indeterminate) && session.touches == old(session.touches)
      ensures Ready() && ok ==>
        var fate := Fate(session.log, a, name, SnapshotKind);
        if fate.Active? then fate.latest.Snapshot? && r == Ok(Some(fate.latest.bytes)) else r == Ok(None)
      ensures !poisoned ==> Next(old(session.State()), Loading, session.State())
    {
      ActiveCheckpointIsCovered(session.log, a, name);
      var ready := ReadySession();
      if ready.Err? {
        return Err(ready.error);
      }
      var fiber := session.GetFiber(FiberKey(a, name, SnapshotKind), ok);
      if fiber.Err? {
        return Err(fiber.error);
      }
      r := if fiber.value.Active? && fiber.value.latest.Snapshot? then Ok(Some(fiber.value.latest.bytes)) else Ok(None);
    }

    /** Snapshot strictly before checkpoint, then a sync. */
    method Persist(a: NonZeroU64, bytes: Bytes, sequence: NonZeroU64, io: PersistIo)
      returns (r: Result<(), ProjectionError>)
      requires session.Valid()
      modifies session
      ensures session.Valid()
      ensures PersistStep(old(session.log), session.log, a, name, bytes, sequence)
      ensures r.Ok? ==>
        session.log == AfterPersist(old(session.log), a, name, bytes, sequence) && session.synced == |session.log|
      ensures r.Err? ==> session.synced == old(session.synced)
      ensures r.Err? && r.error != Indeterminate ==> session.log == old(session.log)
      ensures !old(Ready()) ==>
        && session.log == old(session.log) && session.touches == old(session.touches)
        && r == Err(if poisoned then Infrastructure else Indeterminate)
      ensures session.uncertain ==> r == Err(if poisoned then Infrastructure else Indeterminate)
      ensures session.uncertain <==>
        old(session.uncertain) || (!poisoned && PersistUndetermined(old(session.log), a, name, bytes, sequence, io))
      ensures !poisoned ==> Next(old(session.State()), Persisting(a, name, bytes, sequence, io), session.State())
      ensures r.Err? && r.error.CheckpointRegression? ==>
        sequence == r.error.attempted < r.error.existing == CheckpointOf(session.log, a, name)
      ensures r.Ok? <==>
        && io == PersistIo(true, true, Lands, true, Lands, true) && old(Ready()) && |bytes| <= SNAPSHOT_BYTES_MAX
        && CheckpointOf(old(session.log), a, name) <= sequence
    {
      hide FiberKey;
      var ready := ReadySession();
      if ready.Err? {
        return Err(ready.error);
      }
      if |bytes| > SNAPSHOT_BYTES_MAX {
        return Err(Infrastructure);
      }
      var existing := LoadCheckpointFromSession(a, io.load);
      if existing.Err? {
        return Err(existing.error);
      }
      if existing.value.Some? && sequence < existing.value.value {
        return Err(CheckpointRegression(existing.value.value, sequence));
      }
      hide Protocol;
      hide CheckpointOf;
      hide AfterSnapshot;
      hide AfterPersist;
      r := WriteBoth(a, bytes, sequence, io);
    }

    /** The writing half of a persist. */
    method WriteBoth(a: NonZeroU64, bytes: Bytes, sequence: NonZeroU64, io: PersistIo)
      returns (r: Result<(), ProjectionError>)
      requires session.Valid() && CheckpointOf(session.log, a, name) <= sequence
      modifies session
      ensures session.Valid() && old(session.touches) <= session.touches
      ensures || session.log == old(session.log)
              || session.log == AfterSnapshot(old(session.log), a, name, bytes, sequence)
              || session.log == AfterPersist(old(session.log), a, name, bytes, sequence)
      ensures r.Ok? ==>
        session.log == AfterPersist(old(session.log), a, name, bytes, sequence) && session.synced == |session.log|
      ensures r.Err? ==> session.synced == old(session.synced)
      ensures r.Err? ==> r.error == Indeterminate || (r.error == Infrastructure && session.log == old(session.log))
      ensures session.uncertain <==>
        || old(session.uncertain)
        || (io.snapshotFiber && io.snapshotWrite.Unknown?)
        || (io.snapshotFiber && io.snapshotWrite == Lands && io.checkpointFiber && io.checkpointWrite.Unknown?)
      ensures session.uncertain && !old(session.uncertain) ==> r == Err(Indeterminate)
      ensures r.Ok? <==>
        io.snapshotFiber && io.snapshotWrite == Lands && io.checkpointFiber && io.checkpointWrite == Lands && io.sync
    {
      SnapshotAllowed(session.log, a, name, bytes, sequence);
      CheckpointAllowed(session.log, a, name, bytes, sequence);
      hide FiberKey;
      hide Protocol;
      hide Allowed;
      hide Put;
      hide CheckpointOf;
      r := PutRecord(Snapshot(a, name, bytes, sequence), io.snapshotFiber, io.snapshotWrite);
      if r.Err? {
        return;
      }
      r := PutRecord(Checkpoint(a, name, sequence), io.checkpointFiber, io.checkpointWrite);
      if r.Err? {
        return Err(Indeterminate);
      }
      r := session.Sync(io.sync);
      if r.Err? {
        return Err(Indeterminate);
      }
    }

    /** Appends to an absent or active fiber and rescues a detached one. */
    method PutRecord(record: Record, fiberOk: bool, io: WriteIo) returns (r: Result<(), ProjectionError>)
      requires session.Valid() && Allowed(session.log, Put(session.log, record))
      modifies session`log, session`uncertain, session`touches
      ensures session.Valid()
      ensures r.Ok? <==> fiberOk && io == Lands
      ensures r.Ok? ==> session.log == old(session.log) + [Put(old(session.log), record)]
      ensures session.log == old(session.log) || session.log == old(session.log) + [Put(old(session.log), record)]
      ensures r.Err? ==> r.error == Indeterminate || (r.error == Infrastructure && session.log == old(session.log))
      ensures r == Err(Indeterminate) <==> fiberOk && io.Unknown?
      ensures session.uncertain == (old(session.uncertain) || r == Err(Indeterminate))
      ensures old(session.touches) < session.touches
    {
      var key := FiberKey(record.aggregate, record.name, KindOf(record));
      var handle := session.GetFiber(key, fiberOk);
      if handle.Err? {
        return Err(Infrastructure);
      }
      var verdict := session.Write(if handle.value.Detached? then Rescue(key, record) else Append(key, record), io);
      r := RequireLanded(verdict);
    }

    /** The inverse order: the checkpoint goes first, then the snapshot, then a sync. */
    method Delete(a: NonZeroU64, io: DeleteIo) returns (r: Result<(), ProjectionError>)
      requires session.Valid()
      modifies session
      ensures session.Valid()
      ensures DeleteStep(old(session.log), session.log, a, name)
      ensures r.Ok? ==> session.log == AfterDelete(old(session.log), a, name) && session.synced == |session.log|
      ensures r.Err? ==> session.synced == old(session.synced)
      ensures r.Err? && r.error != Indeterminate ==> session.log == old(session.log)
      ensures !old(Ready()) ==>
        && session.log == old(session.log) && session.touches == old(session.touches)
        && r == Err(if poisoned then Infrastructure else Indeterminate)
      ensures session.uncertain ==> r == Err(if poisoned then Infrastructure else Indeterminate)
      ensures session.uncertain <==>
        old(session.uncertain) || (!poisoned && DeleteUndetermined(old(session.log), a, name, io))
      ensures !poisoned ==> Next(old(session.State()), Deleting(a, name, io), session.State())
      ensures r.Ok? <==>
        && old(Ready()) && io.checkpointFiber && io.snapshotFiber && io.sync
        && (old(Fate(session.log, a, name, CheckpointKind)).Active? ==> io.checkpointDetach == Lands)
        && (old(Fate(session.log, a, name, SnapshotKind)).Active? ==> io.snapshotDetach == Lands)
    {
      hide FiberKey;
      var ready := ReadySession();
      if ready.Err? {
        return Err(ready.error);
      }
      CheckpointDetachAllowed(session.log, a, name);
      WithoutReads(session.log, a, name, CheckpointKind, a, name, SnapshotKind);
      SnapshotDetachAllowed(Without(session.log, a, name, CheckpointKind), a, name);
      hide Protocol;
      hide Allowed;
      var checked, checkpointActive := DetachRecord(a, CheckpointKind, io.checkpointFiber, io.checkpointDetach);
      if checked.Err? {
        return Err(checked.error);
      }
      hide Fate;
      var snapped, snapshotActive := DetachRecord(a, SnapshotKind, io.snapshotFiber, io.snapshotDetach);
      r := snapped;
      if r.Ok? {
        r := session.Sync(io.sync);
        if r.Err? && snapshotActive {
          r := Err(Indeterminate);
        }
      }
      if r.Err? && checkpointActive {
        r := Err(Indeterminate);
      }
    }

    /** Detaches a record if it is active; `active` is the handle as it was found. */
    method DetachRecord(a: NonZeroU64, kind: Kind, fiberOk: bool, io: WriteIo)
      returns (r: Result<(), ProjectionError>, active: bool)
      requires session.Valid()
      requires Fate(session.log, a, name, kind).Active? ==>
        Allowed(session.log, Detach(FiberKey(a, name, kind), Tombstone(a, name, kind)))
      modifies session`log, session`uncertain, session`touches
      ensures session.Valid()
      ensures active == (fiberOk && old(Fate(session.log, a, name, kind)).Active?)
      ensures r.Ok? <==> fiberOk && (active ==> io == Lands)
      ensures r.Ok? ==> session.log == Without(old(session.log), a, name, kind)
      ensures session.log == old(session.log) || session.log == Without(old(session.log), a, name, kind)
      ensures r.Err? ==> r.error == Indeterminate || (r.error == Infrastructure && session.log == old(session.log))
      ensures !active ==> session.log == old(session.log)
      ensures r == Err(Indeterminate) <==> active && io.Unknown?
      ensures session.uncertain == (old(session.uncertain) || r == Err(Indeterminate))
      ensures old(session.touches) < session.touches
    {
      active := false;
      var key := FiberKey(a, name, kind);
      var handle := session.GetFiber(key, fiberOk);
      if handle.Err? {
        return Err(Infrastructure), false;
      }
      active := handle.value.Active?;
      r := Ok(());
      if active {
        var verdict := session.Write(Detach(key, Tombstone(a, name, kind)), io);
        r := RequireLanded(verdict);
      }
    }
  }

  /** What a delete can leave behind: nothing, the checkpoint gone, or both gone. */
  ghost predicate DeleteStep(log: seq<Entry>, log': seq<Entry>, a: NonZeroU64, m: string) {
    log' == log || log' == Without(log, a, m, CheckpointKind) || log' == AfterDelete(log, a, m)
  }

  /** What a persist can leave behind: nothing, its snapshot, or both records, and the last two only
      when its sequence does not regress. */
  ghost predicate PersistStep(log: seq<Entry>, log': seq<Entry>, a: NonZeroU64, m: string, bytes: Bytes,
                              sequence: NonZeroU64) {
    || log' == log
    || (CheckpointOf(log, a, m) <= sequence
        && (log' == AfterSnapshot(log, a, m, bytes, sequence) || log' == AfterPersist(log, a, m, bytes, sequence)))
  }

  // ---------------------------------------------------------------------
  // Every run: calls that may stop anywhere, and reopening
  // ---------------------------------------------------------------------

  /** The log, how much of it a sync has confirmed, whether a write was left undetermined, and the reads
      and writes of records so far. Of these only the log outlives a process. */
  datatype SessionState = SessionState(log: seq<Entry>, synced: nat, uncertain: bool, touches: nat)

  /** A call by any caller with what the medium does to it, or a reopening that finds the first `kept`
      entries. A call cut short is one whose remaining steps fail, followed by a reopening. */
  datatype Action =
    | Persisting(a: NonZeroU64, m: string, bytes: Bytes, sequence: NonZeroU64, persist: PersistIo)
    | Deleting(a: NonZeroU64, m: string, delete: DeleteIo)
    | Loading
    | Reopening(kept: nat)

  /** A write of the persist came back undetermined. */
  ghost predicate PersistUndetermined(log: seq<Entry>, a: NonZeroU64, m: string, bytes: Bytes, sequence: NonZeroU64,
                                      io: PersistIo) {
    && |bytes| <= SNAPSHOT_BYTES_MAX && io.load && CheckpointOf(log, a, m) <= sequence && io.snapshotFiber
    && (io.snapshotWrite.Unknown? || (io.snapshotWrite == Lands && io.checkpointFiber && io.checkpointWrite.Unknown?))
  }

  ghost predicate DeleteUndetermined(log: seq<Entry>, a: NonZeroU64, m: string, io: DeleteIo) {
    && io.checkpointFiber
    && if Fate(log, a, m, CheckpointKind).Active? && io.checkpointDetach != Lands then io.checkpointDetach.Unknown?
       else io.snapshotFiber && Fate(log, a, m, SnapshotKind).Active? && io.snapshotDetach.Unknown?
  }

  ghost predicate Undetermined(log: seq<Entry>, action: Action) {
    match action
    case Persisting(a, m, bytes, sequence, io) => PersistUndetermined(log, a, m, bytes, sequence, io)
    case Deleting(a, m, io) => DeleteUndetermined(log, a, m, io)
    case _ => false
  }

  ghost predicate Next(s: SessionState, action: Action, s': SessionState) {
    if action.Reopening? then
      action.kept <= |s.log| && s' == SessionState(s.log[..action.kept], action.kept, false, 0)
    else if s.uncertain then
      s' == s
    else
      && s'.uncertain == Undetermined(s.log, action) && s.touches <= s'.touches
      && (s'.synced == s.synced || s'.synced == |s'.log|)
      && match action
         case Persisting(a, m, bytes, sequence, _) => PersistStep(s.log, s'.log, a, m, bytes, sequence)
         case Deleting(a, m, _) => DeleteStep(s.log, s'.log, a, m)
         case _ => s'.log == s.log && s'.synced == s.synced
  }

  ghost predicate IsRun(states: seq<SessionState>, actions: seq<Action>) {
    && |states| == |actions| + 1 && states[0] == SessionState([], 0, false, 0)
    && forall i :: 0 <= i < |actions| ==> Next(states[i], actions[i], states[i + 1])
  }

  lemma NextKeepsProtocol(s: SessionState, action: Action, s': SessionState)
    requires Protocol(s.log) && Next(s, action, s')
    ensures Protocol(s'.log)
  {
    hide Protocol;
    match action
    case Persisting(a, m, bytes, sequence, _) =>
      if s'.log != s.log {
        SnapshotAllowed(s.log, a, m, bytes, sequence);
        CheckpointAllowed(s.log, a, m, bytes, sequence);
      }
    case Deleting(a, m, _) =>
      CheckpointDetachAllowed(s.log, a, m);
      WithoutReads(s.log, a, m, CheckpointKind, a, m, SnapshotKind);
      SnapshotDetachAllowed(Without(s.log, a, m, CheckpointKind), a, m);
    case Loading =>
    case Reopening(kept) =>
      ProtocolPrefix(s.log, kept);
  }

  /** In every state of every run, whatever was cut short and whichever prefix a reopening found, an
      active checkpoint has an active snapshot persisted for a sequence no smaller. */
  lemma {:induction false} RunsAreCovered(states: seq<SessionState>, actions: seq<Action>, k: nat, a: nat, m: string)
    requires IsRun(states, actions) && k < |states|
    ensures Protocol(states[k].log) && Covered(states[k].log, a, m)
  {
    hide Protocol;
    hide Covered;
    if k == 0 {
      assert Protocol([]) by {
        NothingWritten();
      }
    } else {
      RunsAreCovered(states, actions, k - 1, a, m);
      assert Next(states[k - 1], actions[k - 1], states[k]);
      NextKeepsProtocol(states[k - 1], actions[k - 1], states[k]);
    }
    ActiveCheckpointIsCovered(states[k].log, a, m);
  }

  /** An uncertain session stays so and is left alone until it is reopened. */
  lemma {:induction false} UncertainStaysQuiet(states: seq<SessionState>, actions: seq<Action>, i: nat, j: nat)
    requires IsRun(states, actions) && i <= j < |states| && states[i].uncertain
    requires forall k :: i <= k < j ==> !actions[k].Reopening?
    ensures states[j] == states[i]
    decreases j
  {
    if i < j {
      UncertainStaysQuiet(states, actions, i, j - 1);
      assert Next(states[j - 1], actions[j - 1], states[j]);
    }
  }

  /** Over every run: from an undetermined write until the next reopening no call changes the log or
      reads or writes a record. */
  lemma NothingFollowsAnUndeterminedWrite(states: seq<SessionState>, actions: seq<Action>, i: nat, j: nat)
    requires IsRun(states, actions) && i < j < |states|
    requires !states[i].uncertain && Undetermined(states[i].log, actions[i])
    requires forall k :: i < k < j ==> !actions[k].Reopening?
    ensures states[j] == states[i + 1] && states[j].uncertain
  {
    assert Next(states[i], actions[i], states[i + 1]);
    UncertainStaysQuiet(states, actions, i + 1, j);
  }

  /** A write at `k` was left undetermined and the session has not been reopened since. */
  ghost predicate LeftUndetermined(states: seq<SessionState>, actions: seq<Action>, k: nat, j: nat) {
    && k < j <= |actions| && j <= |states|
    && !states[k].uncertain && Undetermined(states[k].log, actions[k])
    && forall l :: k < l < j ==> !actions[l].Reopening?
  }

  /** A session is uncertain exactly when a write on it was left undetermined. */
  lemma {:induction false} UncertainExactlyWhen(states: seq<SessionState>, actions: seq<Action>, j: nat)
    requires IsRun(states, actions) && j < |states|
    ensures states[j].uncertain <==> exists k :: LeftUndetermined(states, actions, k, j)
  {
    if j > 0 {
      UncertainExactlyWhen(states, actions, j - 1);
      assert Next(states[j - 1], actions[j - 1], states[j]);
      if k :| LeftUndetermined(states, actions, k, j) {
        NothingFollowsAnUndeterminedWrite(states, actions, k, j);
      }
      if states[j].uncertain && states[j - 1].uncertain {
        var k :| LeftUndetermined(states, actions, k, j - 1);
        assert LeftUndetermined(states, actions, k, j);
      } else if states[j].uncertain {
        assert LeftUndetermined(states, actions, j - 1, j);
      }
    }
  }

  lemma NothingWritten()
    ensures Protocol([])
  {
  }

  /** No entry from position `n` on detaches the checkpoint. */
  ghost predicate CheckpointStays(log: seq<Entry>, n: nat, a: nat, m: string) {
    forall i :: n <= i < |log| ==> !(log[i].Detach? && log[i].fiber == FiberKey(a, m, CheckpointKind))
  }

  lemma NextKeepsCheckpoint(s: SessionState, action: Action, s': SessionState, n: nat, a: nat, m: string)
    requires Next(s, action, s') && !(action.Deleting? && action.a == a && action.m == m)
    requires n <= |s.log| && CheckpointStays(s.log, n, a, m) && (action.Reopening? ==> n <= action.kept)
    ensures n <= |s'.log| && s'.log[..n] == s.log[..n] && CheckpointStays(s'.log, n, a, m)
  {
    if action.Deleting? {
      KeysAreInjective(action.a, action.m, CheckpointKind, a, m, CheckpointKind);
      KeysAreInjective(action.a, action.m, SnapshotKind, a, m, CheckpointKind);
    }
    hide FiberKey;
    hide CheckpointOf;
    hide Fate;
  }

  /** Entry `i` records a checkpoint of this projection that nothing after it detaches. */
  ghost predicate LiveCheckpoint(log: seq<Entry>, i: nat, a: nat, m: string) {
    && i < |log| && log[i].record.Checkpoint? && log[i].record.aggregate == a && log[i].record.name == m
    && CheckpointStays(log, i, a, m)
  }

  lemma {:induction false} LastWrite(log: seq<Entry>, fiber: string) returns (i: nat)
    requires FiberOf(log, fiber).Active?
    ensures i < |log| && log[i].fiber == fiber && FiberOf(log, fiber) == Active(log[i].record)
    ensures forall k :: i < k < |log| ==> log[k].fiber != fiber
  {
    var n := |log| - 1;
    if log[n].fiber == fiber {
      i := n;
    } else {
      i := LastWrite(log[..n], fiber);
    }
  }

  lemma {:induction false} QuietTail(log: seq<Entry>, n: nat, fiber: string)
    requires n <= |log| && forall k :: n <= k < |log| ==> log[k].fiber != fiber
    ensures FiberOf(log[..n], fiber) == FiberOf(log, fiber)
    decreases |log|
  {
    if n == |log| {
      assert log[..n] == log;
    } else {
      assert log[..|log| - 1][..n] == log[..n];
      QuietTail(log[..|log| - 1], n, fiber);
    }
  }

  lemma LiveIsLowerBound(log: seq<Entry>, i: nat, a: nat, m: string)
    requires Protocol(log) && LiveCheckpoint(log, i, a, m)
    ensures log[i].record.lastSequence <= CheckpointOf(log, a, m)
  {
    hide FiberKey;
    hide CheckpointOf;
    assert Allowed(log[..i], log[i]);
    CheckpointWritten(log, i, a, m);
    hide Allowed;
    CheckpointNeverDecreases(log, i + 1, a, m);
  }

  lemma CheckpointWritten(log: seq<Entry>, i: nat, a: nat, m: string)
    requires i < |log| && Allowed(log[..i], log[i]) && log[i].record.Checkpoint?
    requires log[i].record.aggregate == a && log[i].record.name == m
    ensures CheckpointOf(log[..i + 1], a, m) == log[i].record.lastSequence
  {
    FateAfter(log[..i], log[i], a, m, CheckpointKind);
    assert log[..i] + [log[i]] == log[..i + 1];
  }

  /** Exactly what a shortened log costs: the checkpoint is lower than before if and only if an entry
      was dropped that recorded a higher one and that nothing had detached. */
  lemma ShorteningLosesExactly(log: seq<Entry>, kept: nat, a: nat, m: string)
    requires Protocol(log) && kept <= |log|
    ensures CheckpointOf(log[..kept], a, m) < CheckpointOf(log, a, m) <==> DropsHigher(log, kept, a, m)
  {
    var c := CheckpointOf(log[..kept], a, m);
    forall i | kept <= i < |log| && LiveCheckpoint(log, i, a, m)
      ensures log[i].record.lastSequence <= CheckpointOf(log, a, m)
    {
      LiveIsLowerBound(log, i, a, m);
    }
    if c < CheckpointOf(log, a, m) {
      ActiveCheckpointIsCovered(log, a, m);
      var i := LastWrite(log, FiberKey(a, m, CheckpointKind));
      hide FiberKey;
      if i < kept {
        QuietTail(log, kept, FiberKey(a, m, CheckpointKind));
        assert false;
      }
      assert Allowed(log[..i], log[i]);
      assert LiveCheckpoint(log, i, a, m);
    }
  }

  ghost predicate DropsHigher(log: seq<Entry>, kept: nat, a: nat, m: string) {
    && kept <= |log|
    && exists i :: kept <= i < |log| && LiveCheckpoint(log, i, a, m)
         && CheckpointOf(log[..kept], a, m) < log[i].record.lastSequence
  }

  /** One action other than a delete takes the checkpoint back exactly when it is a reopening that
      dropped a higher one. */
  lemma GoesBackExactlyWhen(s: SessionState, action: Action, s': SessionState, a: nat, m: string)
    requires Protocol(s.log) && Next(s, action, s') && !(action.Deleting? && action.a == a && action.m == m)
    ensures CheckpointOf(s'.log, a, m) < CheckpointOf(s.log, a, m) <==>
      action.Reopening? && DropsHigher(s.log, action.kept, a, m)
  {
    if action.Reopening? {
      ShorteningLosesExactly(s.log, action.kept, a, m);
    } else {
      NextKeepsProtocol(s, action, s');
      NextKeepsCheckpoint(s, action, s', |s.log|, a, m);
      CheckpointNeverDecreases(s'.log, |s.log|, a, m);
      assert s'.log[..|s.log|] == s.log;
    }
  }

  ghost predicate Advances(states: seq<SessionState>, k: nat, a: nat, m: string) {
    k + 1 < |states| && CheckpointOf(states[k].log, a, m) <= CheckpointOf(states[k + 1].log, a, m)
  }

  /** Between deletes, over every run: the checkpoint never decreases if and only if no reopening drops
      an undetached checkpoint higher than the one it finds. */
  lemma CheckpointsAdvanceExactlyWhen(states: seq<SessionState>, actions: seq<Action>, i: nat, j: nat, a: nat,
                                      m: string)
    requires IsRun(states, actions) && i <= j < |states|
    requires forall k :: i <= k < j ==> !(actions[k].Deleting? && actions[k].a == a && actions[k].m == m)
    ensures (forall k :: i <= k < j ==> Advances(states, k, a, m)) <==>
      (forall k :: i <= k < j && actions[k].Reopening? ==> !DropsHigher(states[k].log, actions[k].kept, a, m))
  {
    hide Protocol;
    hide CheckpointOf;
    hide DropsHigher;
    forall k | i <= k < j
      ensures !Advances(states, k, a, m) <==>
        actions[k].Reopening? && DropsHigher(states[k].log, actions[k].kept, a, m)
    {
      RunsAreCovered(states, actions, k, a, m);
      assert Next(states[k], actions[k], states[k + 1]);
      hide Next;
      GoesBackExactlyWhen(states[k], actions[k], states[k + 1], a, m);
    }
  }

  /** The first `n` entries survive any actions that neither delete nor reopen below them. */
  lemma {:induction false} PrefixSurvives(states: seq<SessionState>, actions: seq<Action>, i: nat, j: nat, n: nat,
                                          a: nat, m: string)
    requires IsRun(states, actions) && i <= j < |states| && n <= |states[i].log|
    requires CheckpointStays(states[i].log, n, a, m)
    requires forall k :: i <= k < j ==> !(actions[k].Deleting? && actions[k].a == a && actions[k].m == m)
    requires forall k :: i <= k < j && actions[k].Reopening? ==> n <= actions[k].kept
    ensures n <= |states[j].log| && states[j].log[..n] == states[i].log[..n] && CheckpointStays(states[j].log, n, a, m)
    decreases j
  {
    if i < j {
      PrefixSurvives(states, actions, i, j - 1, n, a, m);
      assert Next(states[j - 1], actions[j - 1], states[j]);
      NextKeepsCheckpoint(states[j - 1], actions[j - 1], states[j], n, a, m);
    }
  }

  /** Whatever a reopening drops behind it, a checkpoint is a floor for good as long as every reopening
      finds at least the log that held it. */
  lemma CheckpointsOnlyAdvance(states: seq<SessionState>, actions: seq<Action>, i: nat, j: nat, a: nat, m: string)
    requires IsRun(states, actions) && i <= j < |states|
    requires forall k :: i <= k < j ==> !(actions[k].Deleting? && actions[k].a == a && actions[k].m == m)
    requires forall k :: i <= k < j && actions[k].Reopening? ==> |states[i].log| <= actions[k].kept
    ensures CheckpointOf(states[i].log, a, m) <= CheckpointOf(states[j].log, a, m)
  {
    var n := |states[i].log|;
    PrefixSurvives(states, actions, i, j, n, a, m);
    RunsAreCovered(states, actions, j, a, m);
    CheckpointNeverDecreases(states[j].log, n, a, m);
    assert states[i].log[..n] == states[i].log;
  }

  lemma {:induction false} SyncedOnlyGrows(states: seq<SessionState>, actions: seq<Action>, i: nat, j: nat)
    requires IsRun(states, actions) && i <= j < |states|
    ensures states[j].synced <= |states[j].log|
    ensures (forall k :: i <= k < j && actions[k].Reopening? ==> states[k].synced <= actions[k].kept) ==>
      states[i].synced <= states[j].synced
    decreases j
  {
    hide CheckpointOf;
    hide FiberKey;
    if j > 0 {
      SyncedOnlyGrows(states, actions, if i < j then i else 0, j - 1);
      assert Next(states[j - 1], actions[j - 1], states[j]);
    }
  }

  /** Durability: the synced checkpoint is a floor for good. Whatever crashes follow, as long as a
      reopening finds at least the synced part, and unless a delete has come or is already in the
      unsynced tail, the checkpoint never falls below it. */
  lemma DurableCheckpointsOnlyAdvance(states: seq<SessionState>, actions: seq<Action>, i: nat, j: nat, a: nat,
                                      m: string)
    requires IsRun(states, actions) && i <= j < |states| && CheckpointStays(states[i].log, states[i].synced, a, m)
    requires forall k :: i <= k < j ==> !(actions[k].Deleting? && actions[k].a == a && actions[k].m == m)
    requires forall k :: i <= k < j && actions[k].Reopening? ==> states[k].synced <= actions[k].kept
    ensures states[i].synced <= |states[i].log|
    ensures CheckpointOf(states[i].log[..states[i].synced], a, m) <= CheckpointOf(states[j].log, a, m)
  {
    var n := states[i].synced;
    SyncedOnlyGrows(states, actions, i, i);
    forall k | i <= k < j && actions[k].Reopening? ensures n <= actions[k].kept {
      SyncedOnlyGrows(states, actions, i, k);
    }
    PrefixSurvives(states, actions, i, j, n, a, m);
    RunsAreCovered(states, actions, j, a, m);
    CheckpointNeverDecreases(states[j].log, n, a, m);
  }

  /** Those provisos are exact: every crash that finds the synced part leaves at least the synced
      checkpoint if and only if there is none or no delete of it is in the unsynced tail. */
  lemma SyncedCheckpointIsSafeExactlyWhen(log: seq<Entry>, synced: nat, a: nat, m: string)
    requires Protocol(log) && synced <= |log|
    ensures (forall kept :: synced <= kept <= |log| ==>
               CheckpointOf(log[..synced], a, m) <= CheckpointOf(log[..kept], a, m)) <==>
      CheckpointOf(log[..synced], a, m) == 0 || CheckpointStays(log, synced, a, m)
  {
    if CheckpointStays(log, synced, a, m) {
      forall kept | synced <= kept <= |log|
        ensures CheckpointOf(log[..synced], a, m) <= CheckpointOf(log[..kept], a, m)
      {
        ProtocolPrefix(log, kept);
        assert log[..kept][..synced] == log[..synced];
        assert CheckpointStays(log[..kept], synced, a, m);
        CheckpointNeverDecreases(log[..kept], synced, a, m);
      }
    } else {
      var d :| synced <= d < |log| && log[d].Detach? && log[d].fiber == FiberKey(a, m, CheckpointKind);
      DetachSilences(log, d, a, m);
    }
    hide CheckpointOf;
    hide CheckpointStays;
    hide Protocol;
  }

  lemma DetachSilences(log: seq<Entry>, d: nat, a: nat, m: string)
    requires d < |log| && log[d].Detach? && log[d].fiber == FiberKey(a, m, CheckpointKind)
    ensures CheckpointOf(log[..d + 1], a, m) == 0
  {
    assert log[..d + 1][d] == log[d];
  }

  lemma PersistExtends(log: seq<Entry>, a: NonZeroU64, m: string, bytes: Bytes, sequence: NonZeroU64)
    ensures var log' := AfterPersist(log, a, m, bytes, sequence); |log'| == |log| + 2 && log'[..|log|] == log
    ensures CheckpointOf(AfterPersist(log, a, m, bytes, sequence), a, m) == sequence
  {
    PersistReadsBack(log, a, m, bytes, sequence, a, m, SnapshotKind);
  }

  /** Such a reopening does happen: a persist whose sync failed is lost with the unsynced tail. */
  lemma UnsyncedCheckpointCanGoBack(a: NonZeroU64, m: string, bytes: Bytes)
    returns (states: seq<SessionState>, actions: seq<Action>)
    ensures IsRun(states, actions) && |actions| == 3 && forall i :: 0 <= i < 3 ==> !actions[i].Deleting?
    ensures CheckpointOf(states[2].log, a, m) == 2 && CheckpointOf(states[3].log, a, m) == 1
  {
    var one := AfterPersist([], a, m, bytes, 1);
    var two := AfterPersist(one, a, m, bytes, 2);
    assert CheckpointOf([], a, m) == 0;
    PersistExtends([], a, m, bytes, 1);
    PersistExtends(one, a, m, bytes, 2);
    hide CheckpointOf;
    hide AfterPersist;
    hide AfterSnapshot;
    var fine := PersistIo(true, true, Lands, true, Lands, true);
    states := [SessionState([], 0, false, 0), SessionState(one, 2, false, 5), SessionState(two, 2, false, 10),
               SessionState(one, 2, false, 0)];
    actions := [Persisting(a, m, bytes, 1, fine), Persisting(a, m, bytes, 2, fine.(sync := false)), Reopening(2)];
    assert Next(states[0], actions[0], states[1]);
    assert Next(states[1], actions[1], states[2]);
    assert Next(states[2], actions[2], states[3]);
    hide Next;
  }
}
