/** importDataToDB (src/service/ChargingStationService.ts:74-155) end to end:
    the normalization, then a single bulkUpsert of the three lists, with any
    failure rethrown as an APIError carrying its message; and what a
    successful import leaves in the store. */
module ImportService {
  import opened Common
  import opened Errors
  import opened Records
  import opened BulkOps
  import opened Repository
  import opened Normalizer

  // ----- The outcome of one call -----

  /** What the call resolves or rejects with. */
  function ImportResult(data: seq<ChargingStation>, store: Store, lookupFaults: LookupFaults, gen: IdSupply,
                        writeFaults: UpsertFaults): (r: Result<(), BaseError>)
    ensures r.Err? ==> IsAPIError(r.error) && r.error.statusCode == 500
  {
    match Normalize(data, store, lookupFaults, gen)
    case Err(e) => Err(WrapAsAPIError(e))
    case Ok(b) =>
      match UpsertResult(writeFaults)
      case Ok(_) => Ok(())
      case Err(e) => Err(WrapAsAPIError(e))
  }

  /** The collections afterwards: untouched when the normalization fails,
      since bulkUpsert is then never called. */
  function ImportStore(data: seq<ChargingStation>, store: Store, lookupFaults: LookupFaults, gen: IdSupply,
                       writeFaults: UpsertFaults): Store {
    match Normalize(data, store, lookupFaults, gen)
    case Err(_) => store
    case Ok(b) => UpsertStore(store, b, writeFaults)
  }

  /** What the driver records during the call. */
  function ImportEvents(data: seq<ChargingStation>, store: Store, lookupFaults: LookupFaults, gen: IdSupply,
                        writeFaults: UpsertFaults): seq<DbEvent> {
    match Normalize(data, store, lookupFaults, gen)
    case Err(_) => []
    case Ok(b) => UpsertEvents(b, writeFaults)
  }

  /** importDataToDB against the repository. The existence lookups read the
      collections as they are when the call starts, since no write happens
      before all three lists are built. */
  method ImportDataToDB(repo: ChargingStationRepository, data: seq<ChargingStation>, lookupFaults: LookupFaults,
                        gen: IdSupply, writeFaults: UpsertFaults) returns (r: Result<(), BaseError>)
    modifies repo
    ensures repo.Contents() == ImportStore(data, old(repo.Contents()), lookupFaults, gen, writeFaults)
    ensures repo.log == old(repo.log) + ImportEvents(data, old(repo.Contents()), lookupFaults, gen, writeFaults)
    ensures r == ImportResult(data, old(repo.Contents()), lookupFaults, gen, writeFaults)
  {
    var normalized := Normalize(data, repo.Contents(), lookupFaults, gen);
    if normalized.Err? {
      return Err(WrapAsAPIError(normalized.error));
    }
    var upserted := repo.BulkUpsert(normalized.value, writeFaults);
    if upserted.Err? {
      return Err(WrapAsAPIError(upserted.error));
    }
    return Ok(());
  }

  /** The call succeeds exactly when no lookup and no write fails. A failed
      lookup surfaces as an APIError with the lookup's own message; a failed
      write as an APIError with bulkUpsert's message for the first failing
      write. */
  lemma {:induction false} ImportOutcome(data: seq<ChargingStation>, store: Store, lookupFaults: LookupFaults, gen: IdSupply,
                                         writeFaults: UpsertFaults)
    ensures var r := ImportResult(data, store, lookupFaults, gen, writeFaults);
      var n := Normalize(data, store, lookupFaults, gen);
      && (r.Ok? <==> n.Ok? && NoFault(writeFaults))
      && (n.Err? ==> n.error.Plain? && r == Err(APIError(Some(n.error.message), None)))
      && (n.Ok? && !NoFault(writeFaults) ==>
            r == Err(APIError(Some("error during insert to mongodb: " + FirstWriteFault(writeFaults).value), None)))
  {
    NormalizeFailure(data, store, lookupFaults, gen);
  }

  /** A failed normalization writes nothing; otherwise bulkUpsert runs once,
      on all three lists, and when no write fails the log of the call is one
      session with the three writes, whose sizes are the number of records,
      of their connections and of records again. */
  lemma {:induction false} ImportLog(data: seq<ChargingStation>, store: Store, lookupFaults: LookupFaults, gen: IdSupply,
                                     writeFaults: UpsertFaults)
    ensures var n := Normalize(data, store, lookupFaults, gen);
      var events := ImportEvents(data, store, lookupFaults, gen, writeFaults);
      && (n.Err? ==> events == [] && ImportStore(data, store, lookupFaults, gen, writeFaults) == store)
      && (n.Ok? && NoFault(writeFaults) ==>
            events == [SessionStarted, TransactionStarted,
                       BulkWrite(Addresses, |data|), BulkWrite(Connections, |Flatten(data)|), BulkWrite(Stations, |data|),
                       TransactionCommitted, SessionEnded])
  {
    var n := Normalize(data, store, lookupFaults, gen);
    if n.Ok? {
      NormalizedAddresses(data, store, lookupFaults, gen, n.value);
      NormalizedConnections(data, store, lookupFaults, gen, n.value);
      NormalizedStations(data, store, lookupFaults, gen, n.value, |data| + |Flatten(data)|);
    }
  }

  // ----- What an import without write faults leaves in the store -----

  /** In a list without repeats, the first occurrence of a position's id is
      that position. */
  lemma {:induction false} DistinctFirstIndex(ids: seq<int>, i: nat)
    requires DistinctIds(ids)
    requires i < |ids|
    ensures FirstIndex(ids, ids[i]) == i
  {
    if i > 0 {
      assert ids[i] == ids[1..][i - 1];
      DistinctFirstIndex(ids[1..], i - 1);
    }
  }

  /** With no address id repeated in the catalog, each record's address
      document is stored, as built, under its external id. */
  lemma {:induction false} AddressStored(data: seq<ChargingStation>, store: Store, faults: LookupFaults, gen: IdSupply, b: Batch, i: nat)
    requires Normalize(data, store, faults, gen) == Ok(b)
    requires DistinctIds(AddressIds(data))
    requires i < |data|
    ensures var after := UpsertStore(store, b, NoWriteFaults).addresses;
      data[i].AddressInfo.ID in after && after[data[i].AddressInfo.ID] == b.addresses[i]
  {
    var ids := AddressIds(data);
    NormalizedAddresses(data, store, faults, gen, b);
    forall j | i < j < |b.addresses|
      ensures AddressKey(b.addresses[j]) != AddressKey(b.addresses[i])
    {
      DistinctIdsApart(ids, i, j);
    }
    UpsertEffect(store.addresses, b.addresses, AddressKey);
  }

  /** With no connection id repeated in the catalog, each connection document
      is stored, as built, under its external id. */
  lemma {:induction false} ConnectionStored(data: seq<ChargingStation>, store: Store, faults: LookupFaults, gen: IdSupply, b: Batch, j: nat)
    requires Normalize(data, store, faults, gen) == Ok(b)
    requires DistinctIds(ConnectionIds(Flatten(data)))
    requires j < |Flatten(data)|
    ensures var after := UpsertStore(store, b, NoWriteFaults).connections;
      Flatten(data)[j].ID in after && after[Flatten(data)[j].ID] == b.connectionList[j]
  {
    var ids := ConnectionIds(Flatten(data));
    NormalizedConnections(data, store, faults, gen, b);
    forall l | j < l < |b.connectionList|
      ensures ConnectionKey(b.connectionList[l]) != ConnectionKey(b.connectionList[j])
    {
      DistinctIdsApart(ids, j, l);
    }
    UpsertEffect(store.connections, b.connectionList, ConnectionKey);
  }

  /** With no station id repeated in the catalog, each station document is
      stored, as built, under its external id. */
  lemma {:induction false} StationStored(data: seq<ChargingStation>, store: Store, faults: LookupFaults, gen: IdSupply, b: Batch, i: nat)
    requires Normalize(data, store, faults, gen) == Ok(b)
    requires DistinctIds(StationIds(data))
    requires i < |data|
    ensures var after := UpsertStore(store, b, NoWriteFaults).stations;
      data[i].ID in after && after[data[i].ID] == b.chargingStationsList[i]
  {
    var ids := StationIds(data);
    NormalizedStations(data, store, faults, gen, b, |data| + |Flatten(data)|);
    forall j | i < j < |b.chargingStationsList|
      ensures StationKey(b.chargingStationsList[j]) != StationKey(b.chargingStationsList[i])
    {
      DistinctIdsApart(ids, i, j);
    }
    UpsertEffect(store.stations, b.chargingStationsList, StationKey);
  }

  /** With no address id repeated, a station's address reference names the
      address stored under its record's address id. */
  lemma {:induction false} AddressReferenceResolves(data: seq<ChargingStation>, store: Store, faults: LookupFaults, gen: IdSupply, b: Batch, i: nat)
    requires Normalize(data, store, faults, gen) == Ok(b)
    requires DistinctIds(AddressIds(data))
    requires i < |data|
    ensures var after := UpsertStore(store, b, NoWriteFaults).addresses;
      data[i].AddressInfo.ID in after && b.chargingStationsList[i].addressInfo == Some(after[data[i].AddressInfo.ID].internalId)
  {
    AddressReference(data, store, faults, gen, b, i);
    assert AddressIds(data)[i] == data[i].AddressInfo.ID;
    DistinctFirstIndex(AddressIds(data), i);
    AddressStored(data, store, faults, gen, b, i);
  }

  /** A station holds one reference per connection of its record. */
  lemma {:induction false} StationConnectionCount(data: seq<ChargingStation>, store: Store, faults: LookupFaults, gen: IdSupply, b: Batch, i: nat)
    requires Normalize(data, store, faults, gen) == Ok(b)
    requires DistinctIds(ConnectionIds(Flatten(data)))
    requires i < |data|
    ensures |b.chargingStationsList[i].connections| == |data[i].Connections|
  {
    StationConnections(data, store, faults, gen, b, i);
    FlattenLayout(data, i);
  }

  /** One connection reference of a station, resolved. */
  lemma {:induction false} ConnectionReferenceResolves(data: seq<ChargingStation>, store: Store, faults: LookupFaults, gen: IdSupply, b: Batch, i: nat, m: nat)
    requires Normalize(data, store, faults, gen) == Ok(b)
    requires DistinctIds(ConnectionIds(Flatten(data)))
    requires i < |data|
    requires m < |data[i].Connections|
    ensures var after := UpsertStore(store, b, NoWriteFaults).connections;
      var cs := data[i].Connections;
      && m < |b.chargingStationsList[i].connections|
      && cs[m].ID in after && b.chargingStationsList[i].connections[m] == after[cs[m].ID].internalId
  {
    var flat, list := Flatten(data), b.connectionList;
    var lo, hi := Offset(data, i), Offset(data, i + 1);
    StationConnections(data, store, faults, gen, b, i);
    FlattenLayout(data, i);
    assert flat[lo..hi][m] == flat[lo + m];
    assert list[lo..hi][m] == list[lo + m];
    ConnectionStored(data, store, faults, gen, b, lo + m);
  }

  /** With no connection id repeated, a station's connection references name,
      in order, the connections stored under its own record's connection ids. */
  lemma {:induction false} ConnectionReferencesResolve(data: seq<ChargingStation>, store: Store, faults: LookupFaults, gen: IdSupply, b: Batch, i: nat)
    requires Normalize(data, store, faults, gen) == Ok(b)
    requires DistinctIds(ConnectionIds(Flatten(data)))
    requires i < |data|
    ensures var after := UpsertStore(store, b, NoWriteFaults).connections;
      var cs := data[i].Connections;
      && |b.chargingStationsList[i].connections| == |cs|
      && forall m :: 0 <= m < |cs| ==>
           cs[m].ID in after && b.chargingStationsList[i].connections[m] == after[cs[m].ID].internalId
  {
    var after := UpsertStore(store, b, NoWriteFaults).connections;
    var cs, refs := data[i].Connections, b.chargingStationsList[i].connections;
    StationConnectionCount(data, store, faults, gen, b, i);
    forall m | 0 <= m < |cs|
      ensures cs[m].ID in after && refs[m] == after[cs[m].ID].internalId
    {
      ConnectionReferenceResolves(data, store, faults, gen, b, i, m);
    }
  }

  // ----- Re-importing the same catalog -----

  /** Importing a catalog again, into the store the first import left, builds
      the same addresses: each now keeps the internal id it was stored with. */
  lemma {:induction false} ReimportAddresses(data: seq<ChargingStation>, store: Store, faults: LookupFaults, gen: IdSupply, b: Batch,
                                             faults2: LookupFaults, gen2: IdSupply, b2: Batch)
    requires Normalize(data, store, faults, gen) == Ok(b)
    requires DistinctIds(AddressIds(data))
    requires Normalize(data, UpsertStore(store, b, NoWriteFaults), faults2, gen2) == Ok(b2)
    ensures b2.addresses == b.addresses
  {
    NormalizedAddresses(data, store, faults, gen, b);
    NormalizedAddresses(data, UpsertStore(store, b, NoWriteFaults), faults2, gen2, b2);
    forall i | 0 <= i < |data| ensures b2.addresses[i] == b.addresses[i] {
      AddressStored(data, store, faults, gen, b, i);
    }
  }

  /** The same for the connections. */
  lemma {:induction false} ReimportConnections(data: seq<ChargingStation>, store: Store, faults: LookupFaults, gen: IdSupply, b: Batch,
                                               faults2: LookupFaults, gen2: IdSupply, b2: Batch)
    requires Normalize(data, store, faults, gen) == Ok(b)
    requires DistinctIds(ConnectionIds(Flatten(data)))
    requires Normalize(data, UpsertStore(store, b, NoWriteFaults), faults2, gen2) == Ok(b2)
    ensures b2.connectionList == b.connectionList
  {
    NormalizedConnections(data, store, faults, gen, b);
    NormalizedConnections(data, UpsertStore(store, b, NoWriteFaults), faults2, gen2, b2);
    forall j | 0 <= j < |Flatten(data)| ensures b2.connectionList[j] == b.connectionList[j] {
      ConnectionStored(data, store, faults, gen, b, j);
    }
  }

  /** A normalization builds one station per record. */
  lemma {:induction false} StationCount(data: seq<ChargingStation>, store: Store, faults: LookupFaults, gen: IdSupply, b: Batch)
    requires Normalize(data, store, faults, gen) == Ok(b)
    ensures |b.chargingStationsList| == |data|
  {
    NormalizedStations(data, store, faults, gen, b, |data| + |Flatten(data)|);
  }

  /** One station of the re-import: the same scalar fields, the same internal
      id (now the stored one) and, over the same lists, the same references. */
  lemma {:induction false} ReimportStation(data: seq<ChargingStation>, store: Store, faults: LookupFaults, gen: IdSupply, b: Batch,
                                           faults2: LookupFaults, gen2: IdSupply, b2: Batch, i: nat)
    requires Normalize(data, store, faults, gen) == Ok(b)
    requires DistinctIds(StationIds(data))
    requires Normalize(data, UpsertStore(store, b, NoWriteFaults), faults2, gen2) == Ok(b2)
    requires b2.addresses == b.addresses && b2.connectionList == b.connectionList
    requires i < |data|
    ensures |b2.chargingStationsList| == |b.chargingStationsList| == |data|
    ensures b2.chargingStationsList[i] == b.chargingStationsList[i]
  {
    var after := UpsertStore(store, b, NoWriteFaults);
    var base := |data| + |Flatten(data)|;
    NormalizedStations(data, store, faults, gen, b, base);
    NormalizedStations(data, after, faults2, gen2, b2, base);
    StationStored(data, store, faults, gen, b, i);
    var d, d2 := b.chargingStationsList[i], b2.chargingStationsList[i];
    assert d2.internalId == d.internalId;
    NormalizedParts(data, store, faults, gen, b);
    NormalizedParts(data, after, faults2, gen2, b2);
    StationStageReferences(data, b.addresses, b.connectionList, store, faults, gen);
    StationStageReferences(data, b.addresses, b.connectionList, after, faults2, gen2);
  }

  /** The same for the stations, whose references then agree too. */
  lemma {:induction false} ReimportStations(data: seq<ChargingStation>, store: Store, faults: LookupFaults, gen: IdSupply, b: Batch,
                                            faults2: LookupFaults, gen2: IdSupply, b2: Batch)
    requires Normalize(data, store, faults, gen) == Ok(b)
    requires DistinctIds(StationIds(data))
    requires Normalize(data, UpsertStore(store, b, NoWriteFaults), faults2, gen2) == Ok(b2)
    requires b2.addresses == b.addresses && b2.connectionList == b.connectionList
    ensures b2.chargingStationsList == b.chargingStationsList
  {
    StationCount(data, store, faults, gen, b);
    StationCount(data, UpsertStore(store, b, NoWriteFaults), faults2, gen2, b2);
    forall i | 0 <= i < |data| ensures b2.chargingStationsList[i] == b.chargingStationsList[i] {
      ReimportStation(data, store, faults, gen, b, faults2, gen2, b2, i);
    }
  }

  /** Re-importing an unchanged catalog whose ids do not repeat, once the
      lookups succeed, rebuilds exactly the documents of the first import,
      whatever fresh ids are on offer, and writing them again changes
      nothing. */
  lemma {:induction false} ReimportIsIdempotent(data: seq<ChargingStation>, store: Store, faults: LookupFaults, gen: IdSupply, b: Batch,
                                                faults2: LookupFaults, gen2: IdSupply)
    requires Normalize(data, store, faults, gen) == Ok(b)
    requires DistinctIds(AddressIds(data)) && DistinctIds(ConnectionIds(Flatten(data))) && DistinctIds(StationIds(data))
    requires Normalize(data, UpsertStore(store, b, NoWriteFaults), faults2, gen2).Ok?
    ensures Normalize(data, UpsertStore(store, b, NoWriteFaults), faults2, gen2) == Ok(b)
    ensures UpsertStore(UpsertStore(store, b, NoWriteFaults), b, NoWriteFaults) == UpsertStore(store, b, NoWriteFaults)
  {
    var after := UpsertStore(store, b, NoWriteFaults);
    var b2 := Normalize(data, after, faults2, gen2).value;
    ReimportAddresses(data, store, faults, gen, b, faults2, gen2, b2);
    ReimportConnections(data, store, faults, gen, b, faults2, gen2, b2);
    ReimportStations(data, store, faults, gen, b, faults2, gen2, b2);
    UpsertIdempotent(store.addresses, CreateBulkOps(b.addresses, AddressKey));
    UpsertIdempotent(store.connections, CreateBulkOps(b.connectionList, ConnectionKey));
    UpsertIdempotent(store.stations, CreateBulkOps(b.chargingStationsList, StationKey));
  }
}
