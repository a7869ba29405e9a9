/** ChargingStationRepository (src/infrastructure/repository/ChargingStationRepository.ts):
    the existence lookup and the three-collection bulk upsert inside a session. */
module Repository {
  import opened Common
  import opened Errors
  import opened Records
  import opened BulkOps

  datatype Collection = Addresses | Connections | Stations

  /** `model.findOne({id})`: the document stored under `id`, nothing when there
      is none. `faults` says which lookups the driver fails, and with what
      string form; checkRecordExists re-throws that as `new Error(error)`. */
  function CheckRecordExists<T>(collection: map<int, T>, faults: map<int, string>, id: int): (r: Result<Option<T>, Thrown>)
    ensures r.Err? <==> id in faults
    ensures r.Err? ==> r.error == Plain(faults[id])
    ensures r.Ok? ==> (r.value.Some? <==> id in collection)
    ensures r.Ok? && r.value.Some? ==> r.value.value == collection[id]
  {
    if id in faults then Err(Plain(faults[id]))
    else if id in collection then Ok(Some(collection[id]))
    else Ok(None)
  }

  /** What the driver and the session record, in order. */
  datatype DbEvent =
    | SessionStarted
    | TransactionStarted
    | BulkWrite(collection: Collection, opCount: nat)
    | TransactionCommitted
    | TransactionAborted
    | SessionEnded

  /** The client session's state machine; `Broken` marks a call the driver
      would refuse in that state. */
  datatype SessionState = NoSession | Started | InTransaction | Committed | Aborted | Ended | Broken

  function Advance(s: SessionState, e: DbEvent): SessionState {
    match e
    case SessionStarted => if s == NoSession then Started else Broken
    case TransactionStarted => if s == Started then InTransaction else Broken
    case BulkWrite(_, _) => if s == Broken || s == NoSession || s == Ended then Broken else s
    case TransactionCommitted => if s == InTransaction then Committed else Broken
    case TransactionAborted => if s == InTransaction then Aborted else Broken
    case SessionEnded => if s == Broken || s == NoSession || s == Ended then Broken else Ended
  }

  /** The session state after replaying `events` from state `s`. */
  function Replay(s: SessionState, events: seq<DbEvent>): SessionState
    decreases |events|
  {
    if events == [] then s else Replay(Advance(s, events[0]), events[1..])
  }

  lemma {:induction false} ReplayAppend(s: SessionState, a: seq<DbEvent>, b: seq<DbEvent>)
    ensures Replay(s, a + b) == Replay(Replay(s, a), b)
    decreases |a|
  {
    if a == [] {
      assert a + b == b;
    } else {
      assert (a + b)[0] == a[0] && (a + b)[1..] == a[1..] + b;
      ReplayAppend(Advance(s, a[0]), a[1..], b);
    }
  }

  lemma ReplayWrites(s: SessionState, ws: seq<DbEvent>)
    requires s == InTransaction
    requires forall i :: 0 <= i < |ws| ==> ws[i].BulkWrite?
    ensures Replay(s, ws) == InTransaction
    decreases |ws|
  {
    if ws != [] {
      ReplayWrites(Advance(s, ws[0]), ws[1..]);
    }
  }

  /** A bulkWrite the server fails after its first `applied` operations took
      effect (an ordered bulk write stops at its first failing operation). */
  datatype WriteFault = WriteFault(applied: nat, message: string)

  /** Which of the three writes of one bulkUpsert call fail. */
  datatype UpsertFaults = UpsertFaults(
    addressWrite: Option<WriteFault>,
    connectionWrite: Option<WriteFault>,
    stationWrite: Option<WriteFault>
  )

  /** Every write of the call succeeds. */
  const NoWriteFaults: UpsertFaults := UpsertFaults(None, None, None)

  function InsertErrorMessage(cause: string): string {
    "error during insert to mongodb: " + cause
  }

  /** One bulkWrite on a collection: all of `ops`, or the prefix that took
      effect before the fault. */
  function WriteStep<T>(m: map<int, T>, ops: seq<UpdateOne<T>>, fault: Option<WriteFault>): map<int, T> {
    match fault
    case None => ApplyOps(m, ops)
    case Some(f) => ApplyOps(m, ops[..if f.applied < |ops| then f.applied else |ops|])
  }

  datatype UpsertRun = UpsertRun(store: Store, events: seq<DbEvent>, result: Result<(), Thrown>)

  /** bulkUpsert as a function of the store before the call: start a session
      and a transaction, write addresses, then connections, then stations,
      commit; on the first failure abort and throw; end the session on every
      path. The session is never handed to bulkWrite, so a write that took
      effect stays in place after the abort. */
  function BulkUpsertRun(s: Store, data: Batch, f: UpsertFaults): UpsertRun {
    UpsertRun(UpsertStore(s, data, f), UpsertEvents(data, f), UpsertResult(f))
  }

  /** The collections afterwards: each write that was reached took effect,
      wholly or up to its fault; a write after the first failure is never issued. */
  function UpsertStore(s: Store, data: Batch, f: UpsertFaults): Store {
    var reachC := f.addressWrite.None?;
    var reachS := reachC && f.connectionWrite.None?;
    Store(WriteStep(s.addresses, CreateBulkOps(data.addresses, AddressKey), f.addressWrite),
          if reachC then WriteStep(s.connections, CreateBulkOps(data.connectionList, ConnectionKey), f.connectionWrite) else s.connections,
          if reachS then WriteStep(s.stations, CreateBulkOps(data.chargingStationsList, StationKey), f.stationWrite) else s.stations)
  }

  function UpsertWrites(data: Batch, f: UpsertFaults): seq<DbEvent> {
    var reachC := f.addressWrite.None?;
    var reachS := reachC && f.connectionWrite.None?;
    [BulkWrite(Addresses, |data.addresses|)]
      + (if reachC then [BulkWrite(Connections, |data.connectionList|)] else [])
      + (if reachS then [BulkWrite(Stations, |data.chargingStationsList|)] else [])
  }

  function UpsertEvents(data: Batch, f: UpsertFaults): seq<DbEvent> {
    [SessionStarted, TransactionStarted] + UpsertWrites(data, f)
      + [if NoFault(f) then TransactionCommitted else TransactionAborted, SessionEnded]
  }

  function UpsertResult(f: UpsertFaults): Result<(), Thrown> {
    var failure := FirstWriteFault(f);
    if failure.None? then Ok(()) else Err(Plain(InsertErrorMessage(failure.value)))
  }

  /** The collections written by a run, in the order the writes were issued. */
  function WrittenCollections(events: seq<DbEvent>): seq<Collection>
    decreases |events|
  {
    if events == [] then []
    else (if events[0].BulkWrite? then [events[0].collection] else []) + WrittenCollections(events[1..])
  }

  lemma {:induction false} WrittenCollectionsAppend(a: seq<DbEvent>, b: seq<DbEvent>)
    ensures WrittenCollections(a + b) == WrittenCollections(a) + WrittenCollections(b)
    decreases |a|
  {
    if a == [] {
      assert a + b == b;
    } else {
      assert (a + b)[0] == a[0] && (a + b)[1..] == a[1..] + b;
      WrittenCollectionsAppend(a[1..], b);
    }
  }

  lemma WrittenCollectionsOne(e: DbEvent)
    ensures WrittenCollections([e]) == if e.BulkWrite? then [e.collection] else []
  {
    assert [e][1..] == [];
  }

  predicate NoFault(f: UpsertFaults) {
    f.addressWrite.None? && f.connectionWrite.None? && f.stationWrite.None?
  }

  /** The first failing write's message, in write order. */
  function FirstWriteFault(f: UpsertFaults): (r: Option<string>)
    ensures r.None? <==> NoFault(f)
  {
    if f.addressWrite.Some? then Some(f.addressWrite.value.message)
    else if f.connectionWrite.Some? then Some(f.connectionWrite.value.message)
    else if f.stationWrite.Some? then Some(f.stationWrite.value.message)
    else None
  }

  /** Writes go addresses, then connections, then stations, and stop at the
      first failure. */
  lemma WritesInOrder(s: Store, data: Batch, f: UpsertFaults)
    ensures WrittenCollections(BulkUpsertRun(s, data, f).events)
      == [Addresses] + (if f.addressWrite.None? then [Connections] + (if f.connectionWrite.None? then [Stations] else []) else [])
  {
    var begin := [SessionStarted, TransactionStarted];
    var writes := UpsertWrites(data, f);
    var tail := [if NoFault(f) then TransactionCommitted else TransactionAborted, SessionEnded];
    WrittenCollectionsAppend(begin + writes, tail);
    WrittenCollectionsAppend(begin, writes);
    assert begin[1..] == [TransactionStarted] && begin[1..][1..] == [];
    assert tail[1..] == [SessionEnded] && tail[1..][1..] == [];
    WrittenOfWrites(data, f);
  }

  lemma WrittenOfWrites(data: Batch, f: UpsertFaults)
    ensures WrittenCollections(UpsertWrites(data, f))
      == [Addresses] + (if f.addressWrite.None? then [Connections] + (if f.connectionWrite.None? then [Stations] else []) else [])
  {
    var aW := [BulkWrite(Addresses, |data.addresses|)];
    var cW := [BulkWrite(Connections, |data.connectionList|)];
    var sW := [BulkWrite(Stations, |data.chargingStationsList|)];
    WrittenCollectionsOne(aW[0]);
    if f.addressWrite.Some? {
      assert UpsertWrites(data, f) == aW;
    } else {
      WrittenCollectionsOne(cW[0]);
      if f.connectionWrite.Some? {
        assert UpsertWrites(data, f) == aW + cW;
        WrittenCollectionsAppend(aW, cW);
      } else {
        WrittenCollectionsOne(sW[0]);
        assert UpsertWrites(data, f) == aW + cW + sW;
        WrittenCollectionsAppend(aW + cW, sW);
        WrittenCollectionsAppend(aW, cW);
      }
    }
  }

  /** The session lifecycle of one call: started, a transaction opened, then
      committed exactly when all three writes succeed and aborted otherwise,
      and the session ended last on every path. */
  lemma SessionLifecycle(data: Batch, f: UpsertFaults)
    ensures var e := UpsertEvents(data, f);
      && e[..2] == [SessionStarted, TransactionStarted]
      && (TransactionCommitted in e <==> NoFault(f))
      && (TransactionAborted in e <==> !NoFault(f))
      && e[|e| - 1] == SessionEnded
  {
    var begin := [SessionStarted, TransactionStarted];
    var writes := UpsertWrites(data, f);
    assert forall i :: 0 <= i < |writes| ==> writes[i].BulkWrite?;
    assert TransactionCommitted !in begin + writes && TransactionAborted !in begin + writes;
  }

  /** Replayed through the session state machine, the log of one call is a
      well-formed session: it reaches the commit or the abort, then the end. */
  lemma SessionReplay(data: Batch, f: UpsertFaults)
    ensures var e := UpsertEvents(data, f);
      && Replay(NoSession, e) == Ended
      && Replay(NoSession, e[..|e| - 1]) == (if NoFault(f) then Committed else Aborted)
  {
    var e := UpsertEvents(data, f);
    var begin := [SessionStarted, TransactionStarted];
    var writes := UpsertWrites(data, f);
    var close := if NoFault(f) then TransactionCommitted else TransactionAborted;
    assert e[..|e| - 1] == begin + writes + [close];
    ReplayAppend(NoSession, begin + writes, [close, SessionEnded]);
    ReplayAppend(NoSession, begin + writes, [close]);
    ReplayAppend(NoSession, begin, writes);
    assert begin[1..] == [TransactionStarted] && begin[1..][1..] == [];
    ReplayWrites(InTransaction, writes);
    assert [close, SessionEnded][1..] == [SessionEnded] && [SessionEnded][1..] == [] && [close][1..] == [];
  }

  /** The call succeeds exactly when all three writes do; otherwise it throws
      the wrapped message of the first failing write. */
  lemma UpsertOutcome(s: Store, data: Batch, f: UpsertFaults)
    ensures var run := BulkUpsertRun(s, data, f);
      && (run.result.Ok? <==> NoFault(f))
      && (run.result.Err? ==> run.result.error == Plain("error during insert to mongodb: " + FirstWriteFault(f).value))
      && (NoFault(f) ==> run.store == Store(ApplyOps(s.addresses, CreateBulkOps(data.addresses, AddressKey)),
                                             ApplyOps(s.connections, CreateBulkOps(data.connectionList, ConnectionKey)),
                                             ApplyOps(s.stations, CreateBulkOps(data.chargingStationsList, StationKey))))
  {
  }

  /** No rollback: the abort leaves every write that took effect in place. When
      the stations write fails, the addresses and connections of the batch are
      stored in full, beside whichever stations were written before the fault. */
  lemma NoRollbackOnStationFailure(s: Store, data: Batch, f: UpsertFaults)
    requires f.addressWrite.None? && f.connectionWrite.None? && f.stationWrite.Some?
    ensures var run := BulkUpsertRun(s, data, f);
      && run.result.Err?
      && run.store.addresses == ApplyOps(s.addresses, CreateBulkOps(data.addresses, AddressKey))
      && run.store.connections == ApplyOps(s.connections, CreateBulkOps(data.connectionList, ConnectionKey))
      && run.store.stations == WriteStep(s.stations, CreateBulkOps(data.chargingStationsList, StationKey), f.stationWrite)
  {
  }

  /** The log of one call, appended piece by piece, is the log of the whole call. */
  lemma EventsAppend(before: seq<DbEvent>, writes: seq<DbEvent>, close: DbEvent)
    ensures before + [SessionStarted, TransactionStarted] + writes + [close] + [SessionEnded]
         == before + ([SessionStarted, TransactionStarted] + writes + [close, SessionEnded])
  {
    assert [close] + [SessionEnded] == [close, SessionEnded];
  }

  /** The repository over its three collections. `log` records, in order,
      what the driver was asked to do. */
  class ChargingStationRepository {
    var addresses: map<int, AddressDoc>
    var connections: map<int, ConnectionDoc>
    var stations: map<int, StationDoc>
    var log: seq<DbEvent>

    function Contents(): Store
      reads this
    {
      Store(addresses, connections, stations)
    }

    constructor (initial: Store)
      ensures Contents() == initial && log == []
    {
      addresses, connections, stations := initial.addresses, initial.connections, initial.stations;
      log := [];
    }

    /** bulkUpsert: the three writes in order inside a session, commit or
        abort, and end the session in every case. */
    method BulkUpsert(data: Batch, faults: UpsertFaults) returns (r: Result<(), Thrown>)
      modifies this
      ensures Contents() == UpsertStore(old(Contents()), data, faults)
      ensures log == old(log) + UpsertEvents(data, faults)
      ensures r == UpsertResult(faults)
    {
      ghost var before := log;
      log := log + [SessionStarted, TransactionStarted];
      var failure: Option<string> := None;
      var writes: seq<DbEvent> := [];
      var addressOps := CreateBulkOps(data.addresses, AddressKey);
      addresses := WriteStep(addresses, addressOps, faults.addressWrite);
      writes := writes + [BulkWrite(Addresses, |addressOps|)];
      if faults.addressWrite.Some? {
        failure := Some(faults.addressWrite.value.message);
        assert writes == UpsertWrites(data, faults);
      } else {
        var connectionOps := CreateBulkOps(data.connectionList, ConnectionKey);
        connections := WriteStep(connections, connectionOps, faults.connectionWrite);
        writes := writes + [BulkWrite(Connections, |connectionOps|)];
        if faults.connectionWrite.Some? {
          failure := Some(faults.connectionWrite.value.message);
          assert writes == UpsertWrites(data, faults);
        } else {
          var stationOps := CreateBulkOps(data.chargingStationsList, StationKey);
          stations := WriteStep(stations, stationOps, faults.stationWrite);
          writes := writes + [BulkWrite(Stations, |stationOps|)];
          if faults.stationWrite.Some? {
            failure := Some(faults.stationWrite.value.message);
          }
          assert writes == UpsertWrites(data, faults);
        }
      }
      assert failure == FirstWriteFault(faults);
      log := log + writes;
      var close := if failure.None? then TransactionCommitted else TransactionAborted;
      if failure.None? {
        r := Ok(());
      } else {
        r := Err(Plain(InsertErrorMessage(failure.value)));
      }
      log := log + [close];
      // finally
      log := log + [SessionEnded];
      EventsAppend(before, writes, close);
    }
  }
}
