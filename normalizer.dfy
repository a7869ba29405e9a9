/** importDataToDB (src/service/ChargingStationService.ts): raw catalog records
    become three flat lists of documents whose internal ids are recovered from
    the store or freshly generated, and the lists are handed to bulkUpsert. */
module Normalizer {
  import opened Common
  import opened Errors
  import opened Records
  import opened BulkOps
  import opened Repository

  /** Which existence lookups the driver fails, per collection: external id
      to the string form of the error. */
  datatype LookupFaults = LookupFaults(
    address: map<int, string>,
    connection: map<int, string>,
    station: map<int, string>
  )

  /** uuidv4 as an injected supply: the fresh id of slot k. Addresses use slots
      0 .. n-1, connections the next m slots, stations the n slots after those
      (n records carrying m connections). */
  type IdSupply = nat -> Uuid

  ghost predicate Injective(gen: IdSupply) {
    forall k, l :: k != l ==> gen(k) != gen(l)
  }

  // ----- The raw lists the three stages walk over -----

  function AddressIds(data: seq<ChargingStation>): (ids: seq<int>)
    ensures |ids| == |data| && forall i :: 0 <= i < |data| ==> ids[i] == data[i].AddressInfo.ID
  {
    seq(|data|, i requires 0 <= i < |data| => data[i].AddressInfo.ID)
  }

  function StationIds(data: seq<ChargingStation>): (ids: seq<int>)
    ensures |ids| == |data| && forall i :: 0 <= i < |data| ==> ids[i] == data[i].ID
  {
    seq(|data|, i requires 0 <= i < |data| => data[i].ID)
  }

  /** `flatMap(item => item.Connections)`: every record's connections, record
      after record, each record's in its own order. */
  function Flatten(data: seq<ChargingStation>): seq<Connection>
    decreases |data|
  {
    if data == [] then [] else Flatten(data[..|data| - 1]) + data[|data| - 1].Connections
  }

  function ConnectionIds(flat: seq<Connection>): (ids: seq<int>)
    ensures |ids| == |flat| && forall j :: 0 <= j < |flat| ==> ids[j] == flat[j].ID
  {
    seq(|flat|, j requires 0 <= j < |flat| => flat[j].ID)
  }

  /** Where the connections of record i start in the flattened list. */
  function Offset(data: seq<ChargingStation>, i: nat): nat
    requires i <= |data|
  {
    |Flatten(data[..i])|
  }

  /** Flattening a prefix of the records gives a prefix of the flattened list. */
  lemma {:induction false} FlattenPrefix(data: seq<ChargingStation>, k: nat)
    requires k <= |data|
    ensures Flatten(data[..k]) <= Flatten(data)
    decreases |data| - k
  {
    if k < |data| {
      FlattenPrefix(data, k + 1);
      var p := data[..k + 1];
      assert p[..|p| - 1] == data[..k];
    } else {
      assert data[..k] == data;
    }
  }

  /** The flattened list is the records' connection lists laid end to end:
      record i's connections occupy [Offset(i), Offset(i + 1)). */
  lemma {:induction false} FlattenLayout(data: seq<ChargingStation>, i: nat)
    requires i < |data|
    ensures Offset(data, i) + |data[i].Connections| == Offset(data, i + 1) <= |Flatten(data)|
    ensures Flatten(data)[Offset(data, i)..Offset(data, i + 1)] == data[i].Connections
  {
    FlattenPrefix(data, i + 1);
    var p := data[..i + 1];
    assert p[..|p| - 1] == data[..i];
  }

  /** How many connections the records hold between them. */
  function TotalConnections(data: seq<ChargingStation>): nat
  {
    if data == [] then 0 else TotalConnections(data[..|data| - 1]) + |data[|data| - 1].Connections|
  }

  /** The flattened list holds every connection of every record and no
      other: its length is the records' connection counts added up. */
  lemma {:induction false} FlattenLength(data: seq<ChargingStation>)
    ensures |Flatten(data)| == TotalConnections(data)
    decreases |data|
  {
    if data != [] {
      FlattenLength(data[..|data| - 1]);
    }
  }

  // ----- Promise.all over the lookups of one stage -----

  /** The lookups of a stage all run; the first failing one, in input order,
      is the rejection Promise.all reports. */
  function FirstError<T>(rs: seq<Result<T, Thrown>>): (e: Option<Thrown>)
    ensures e.None? <==> forall i :: 0 <= i < |rs| ==> rs[i].Ok?
    ensures e.Some? ==> exists i :: 0 <= i < |rs| && rs[i] == Err(e.value) && forall j :: 0 <= j < i ==> rs[j].Ok?
    decreases |rs|
  {
    if rs == [] then None
    else if rs[0].Err? then Some(rs[0].error)
    else
      var e := FirstError(rs[1..]);
      assert e.Some? ==> exists i :: 0 <= i < |rs| - 1 && rs[1..][i] == Err(e.value) && forall j :: 0 <= j < i ==> rs[1..][j].Ok?;
      e
  }

  function Lookups<T>(collection: map<int, T>, faults: map<int, string>, ids: seq<int>): (rs: seq<Result<Option<T>, Thrown>>)
    ensures |rs| == |ids| && forall i :: 0 <= i < |ids| ==> rs[i] == CheckRecordExists(collection, faults, ids[i])
  {
    seq(|ids|, i requires 0 <= i < |ids| => CheckRecordExists(collection, faults, ids[i]))
  }

  // ----- Building one document -----

  function BuildAddress(a: AddressInfo, existing: Option<AddressDoc>, newId: Uuid): AddressDoc {
    AddressDoc(a.ID, a.Title, a.AddressLine1, a.Town, a.StateOrProvince, a.Postcode,
               a.CountryID, a.Latitude, a.Longitude, a.DistanceUnit,
               if existing.Some? then existing.value.internalId else newId)
  }

  function BuildConnection(c: Connection, existing: Option<ConnectionDoc>, newId: Uuid): ConnectionDoc {
    ConnectionDoc(c.ID, c.ConnectionTypeID, c.StatusTypeID, c.LevelID, c.PowerKW, c.Quantity,
                  if existing.Some? then existing.value.internalId else newId)
  }

  /** `addresses.find(addr => addr.id === id)?._id` */
  function FindAddress(addresses: seq<AddressDoc>, id: int): Option<Uuid>
    decreases |addresses|
  {
    if addresses == [] then None
    else if addresses[0].id == id then Some(addresses[0].internalId)
    else FindAddress(addresses[1..], id)
  }

  /** `cs.some(c => c.ID === id)` */
  predicate HasConnectionId(cs: seq<Connection>, id: int) {
    exists c :: c in cs && c.ID == id
  }

  /** `connectionList.filter(conn => cs.some(c => c.ID === conn.id)).map(conn => conn._id)` */
  function ConnectionRefs(connectionList: seq<ConnectionDoc>, cs: seq<Connection>): seq<Uuid>
    decreases |connectionList|
  {
    if connectionList == [] then []
    else (if HasConnectionId(cs, connectionList[0].id) then [connectionList[0].internalId] else [])
         + ConnectionRefs(connectionList[1..], cs)
  }

  function BuildStation(item: ChargingStation, addresses: seq<AddressDoc>, connectionList: seq<ConnectionDoc>,
                        existing: Option<StationDoc>, newId: Uuid): StationDoc {
    StationDoc(item.IsRecentlyVerified, DateFrom(item.DateLastVerified), item.ID, item.UUID,
               item.DataProviderID, item.OperatorID, item.UsageTypeID,
               FindAddress(addresses, item.AddressInfo.ID),
               ConnectionRefs(connectionList, item.Connections),
               item.NumberOfPoints, item.StatusTypeID, DateFrom(item.DateLastStatusUpdate),
               item.DataQualityLevel, DateFrom(item.DateCreated), item.SubmissionStatusTypeID,
               if existing.Some? then existing.value.internalId else newId)
  }

  // ----- The three stages and the whole normalization -----

  /** What the lookups of a stage resolved to, once none of them failed. */
  function Resolved<T>(rs: seq<Result<Option<T>, Thrown>>): (found: seq<Option<T>>)
    requires forall i :: 0 <= i < |rs| ==> rs[i].Ok?
    ensures |found| == |rs| && forall i :: 0 <= i < |rs| ==> found[i] == rs[i].value
  {
    seq(|rs|, i requires 0 <= i < |rs| => rs[i].value)
  }

  function AddressDocs(data: seq<ChargingStation>, found: seq<Option<AddressDoc>>, gen: IdSupply): seq<AddressDoc>
    requires |found| == |data|
  {
    seq(|data|, i requires 0 <= i < |data| => BuildAddress(data[i].AddressInfo, found[i], gen(i)))
  }

  function ConnectionDocs(flat: seq<Connection>, found: seq<Option<ConnectionDoc>>, base: nat, gen: IdSupply): seq<ConnectionDoc>
    requires |found| == |flat|
  {
    seq(|flat|, j requires 0 <= j < |flat| => BuildConnection(flat[j], found[j], gen(base + j)))
  }

  function StationDocs(data: seq<ChargingStation>, addresses: seq<AddressDoc>, connectionList: seq<ConnectionDoc>,
                       found: seq<Option<StationDoc>>, base: nat, gen: IdSupply): seq<StationDoc>
    requires |found| == |data|
  {
    seq(|data|, i requires 0 <= i < |data| => BuildStation(data[i], addresses, connectionList, found[i], gen(base + i)))
  }

  function AddressStage(data: seq<ChargingStation>, store: Store, faults: LookupFaults, gen: IdSupply): Result<seq<AddressDoc>, Thrown> {
    var rs := Lookups(store.addresses, faults.address, AddressIds(data));
    match FirstError(rs)
    case Some(e) => Err(e)
    case None => Ok(AddressDocs(data, Resolved(rs), gen))
  }

  function ConnectionStage(data: seq<ChargingStation>, store: Store, faults: LookupFaults, gen: IdSupply): Result<seq<ConnectionDoc>, Thrown> {
    var flat := Flatten(data);
    var rs := Lookups(store.connections, faults.connection, ConnectionIds(flat));
    match FirstError(rs)
    case Some(e) => Err(e)
    case None => Ok(ConnectionDocs(flat, Resolved(rs), |data|, gen))
  }

  function StationStage(data: seq<ChargingStation>, addresses: seq<AddressDoc>, connectionList: seq<ConnectionDoc>,
                        store: Store, faults: LookupFaults, gen: IdSupply): Result<seq<StationDoc>, Thrown> {
    var rs := Lookups(store.stations, faults.station, StationIds(data));
    match FirstError(rs)
    case Some(e) => Err(e)
    case None => Ok(StationDocs(data, addresses, connectionList, Resolved(rs), |data| + |Flatten(data)|, gen))
  }

  /** The three lists, built stage after stage; a stage starts only once the
      previous one has fully resolved, and any failed lookup fails the whole
      normalization with that lookup's error. */
  function Normalize(data: seq<ChargingStation>, store: Store, faults: LookupFaults, gen: IdSupply): Result<Batch, Thrown> {
    match AddressStage(data, store, faults, gen)
    case Err(e) => Err(e)
    case Ok(addresses) =>
      match ConnectionStage(data, store, faults, gen)
      case Err(e) => Err(e)
      case Ok(connectionList) =>
        match StationStage(data, addresses, connectionList, store, faults, gen)
        case Err(e) => Err(e)
        case Ok(stations) => Ok(Batch(addresses, connectionList, stations))
  }

  // ----- What a normalization yields -----

  /** Some lookup of the stage fails. */
  ghost predicate AnyFault(ids: seq<int>, faults: map<int, string>) {
    exists i :: 0 <= i < |ids| && ids[i] in faults
  }

  /** Lookup i is the first of the stage to fail. */
  ghost predicate FirstFaultAt(ids: seq<int>, faults: map<int, string>, i: int) {
    0 <= i < |ids| && ids[i] in faults && forall k :: 0 <= k < i ==> ids[k] !in faults
  }

  /** One stage's Promise.all: it rejects exactly when one of its lookups fails,
      with the error of the first failing lookup. */
  lemma {:induction false} StageOutcome<T>(collection: map<int, T>, faults: map<int, string>, ids: seq<int>)
    ensures var e := FirstError(Lookups(collection, faults, ids));
      && (e.None? <==> !AnyFault(ids, faults))
      && (e.Some? ==> exists i :: FirstFaultAt(ids, faults, i) && e.value == Plain(faults[ids[i]]))
  {
    var rs := Lookups(collection, faults, ids);
    var e := FirstError(rs);
    if e.Some? {
      var i :| 0 <= i < |rs| && rs[i] == Err(e.value) && forall j :: 0 <= j < i ==> rs[j].Ok?;
      assert FirstFaultAt(ids, faults, i);
    }
  }

  /** Normalization fails exactly when some lookup fails, and then with the
      error of the first failing lookup of the first failing stage. */
  lemma {:induction false} NormalizeFailure(data: seq<ChargingStation>, store: Store, faults: LookupFaults, gen: IdSupply)
    ensures var r := Normalize(data, store, faults, gen);
      var aIds, cIds, sIds := AddressIds(data), ConnectionIds(Flatten(data)), StationIds(data);
      && (r.Err? <==> AnyFault(aIds, faults.address) || AnyFault(cIds, faults.connection) || AnyFault(sIds, faults.station))
      && (r.Err? ==>
            || (exists i :: FirstFaultAt(aIds, faults.address, i) && r.error == Plain(faults.address[aIds[i]]))
            || (!AnyFault(aIds, faults.address)
                && exists j :: FirstFaultAt(cIds, faults.connection, j) && r.error == Plain(faults.connection[cIds[j]]))
            || (!AnyFault(aIds, faults.address) && !AnyFault(cIds, faults.connection)
                && exists i :: FirstFaultAt(sIds, faults.station, i) && r.error == Plain(faults.station[sIds[i]])))
  {
    StageOutcome(store.addresses, faults.address, AddressIds(data));
    StageOutcome(store.connections, faults.connection, ConnectionIds(Flatten(data)));
    StageOutcome(store.stations, faults.station, StationIds(data));
  }

  /** The document carries every field of the catalog's address. */
  predicate CopiesAddress(d: AddressDoc, a: AddressInfo) {
    && d.id == a.ID && d.title == a.Title && d.addressLine1 == a.AddressLine1 && d.town == a.Town
    && d.stateOrProvince == a.StateOrProvince && d.postcode == a.Postcode && d.countryId == a.CountryID
    && d.latitude == a.Latitude && d.longitude == a.Longitude && d.distanceUnit == a.DistanceUnit
  }

  /** The document carries every field of the catalog's connection. */
  predicate CopiesConnection(d: ConnectionDoc, c: Connection) {
    && d.id == c.ID && d.connectionTypeId == c.ConnectionTypeID && d.statusTypeId == c.StatusTypeID
    && d.levelId == c.LevelID && d.powerKW == c.PowerKW && d.quantity == c.Quantity
  }

  /** The document carries every scalar field of the catalog's station, the
      three timestamps converted to dates. */
  predicate CopiesStation(d: StationDoc, item: ChargingStation) {
    && d.isRecentlyVerified == item.IsRecentlyVerified && d.dateLastVerified == DateFrom(item.DateLastVerified)
    && d.id == item.ID && d.uuid == item.UUID && d.dataProviderId == item.DataProviderID
    && d.operatorId == item.OperatorID && d.usageTypeId == item.UsageTypeID
    && d.numberOfPoints == item.NumberOfPoints && d.statusTypeId == item.StatusTypeID
    && d.dateLastStatusUpdate == DateFrom(item.DateLastStatusUpdate) && d.dataQualityLevel == item.DataQualityLevel
    && d.dateCreated == DateFrom(item.DateCreated) && d.submissionStatusTypeId == item.SubmissionStatusTypeID
  }

  /** Once no lookup failed, each resolved to the stored document with that id, if any. */
  lemma {:induction false} ResolvedLookups<T>(collection: map<int, T>, faults: map<int, string>, ids: seq<int>)
    requires !AnyFault(ids, faults)
    ensures var rs := Lookups(collection, faults, ids);
      && (forall i :: 0 <= i < |rs| ==> rs[i].Ok?)
      && var found := Resolved(rs);
         forall i :: 0 <= i < |ids| ==> found[i] == (if ids[i] in collection then Some(collection[ids[i]]) else None)
  {
  }

  lemma {:induction false} AddressStageDocuments(data: seq<ChargingStation>, store: Store, faults: LookupFaults, gen: IdSupply)
    requires AddressStage(data, store, faults, gen).Ok?
    ensures var docs := AddressStage(data, store, faults, gen).value;
      && |docs| == |data|
      && forall i :: 0 <= i < |data| ==>
           var a := data[i].AddressInfo;
           && CopiesAddress(docs[i], a)
           && docs[i].internalId == (if a.ID in store.addresses then store.addresses[a.ID].internalId else gen(i))
  {
    StageOutcome(store.addresses, faults.address, AddressIds(data));
    ResolvedLookups(store.addresses, faults.address, AddressIds(data));
    var found := Resolved(Lookups(store.addresses, faults.address, AddressIds(data)));
    var docs := AddressStage(data, store, faults, gen).value;
    assert docs == AddressDocs(data, found, gen);
    forall i | 0 <= i < |data|
      ensures CopiesAddress(docs[i], data[i].AddressInfo)
      ensures docs[i].internalId == (if data[i].AddressInfo.ID in store.addresses
                                     then store.addresses[data[i].AddressInfo.ID].internalId else gen(i))
    {
      assert docs[i] == BuildAddress(data[i].AddressInfo, found[i], gen(i));
    }
  }

  lemma {:induction false} ConnectionStageDocuments(data: seq<ChargingStation>, store: Store, faults: LookupFaults, gen: IdSupply)
    requires ConnectionStage(data, store, faults, gen).Ok?
    ensures var docs := ConnectionStage(data, store, faults, gen).value;
      var flat := Flatten(data);
      && |docs| == |flat|
      && forall j :: 0 <= j < |flat| ==>
           && CopiesConnection(docs[j], flat[j])
           && docs[j].internalId
                == (if flat[j].ID in store.connections then store.connections[flat[j].ID].internalId else gen(|data| + j))
  {
    StageOutcome(store.connections, faults.connection, ConnectionIds(Flatten(data)));
    ResolvedLookups(store.connections, faults.connection, ConnectionIds(Flatten(data)));
  }

  lemma {:induction false} StationDocsFields(data: seq<ChargingStation>, addresses: seq<AddressDoc>, connectionList: seq<ConnectionDoc>,
                          found: seq<Option<StationDoc>>, base: nat, gen: IdSupply)
    requires |found| == |data|
    ensures var docs := StationDocs(data, addresses, connectionList, found, base, gen);
      && |docs| == |data|
      && forall i :: 0 <= i < |data| ==>
           && CopiesStation(docs[i], data[i])
           && docs[i].addressInfo == FindAddress(addresses, data[i].AddressInfo.ID)
           && docs[i].connections == ConnectionRefs(connectionList, data[i].Connections)
           && docs[i].internalId == (if found[i].Some? then found[i].value.internalId else gen(base + i))
  {
  }

  lemma {:induction false} StationStageDocuments(data: seq<ChargingStation>, addresses: seq<AddressDoc>, connectionList: seq<ConnectionDoc>,
                              store: Store, faults: LookupFaults, gen: IdSupply, base: nat)
    requires base == |data| + |Flatten(data)|
    requires StationStage(data, addresses, connectionList, store, faults, gen).Ok?
    ensures var docs := StationStage(data, addresses, connectionList, store, faults, gen).value;
      && |docs| == |data|
      && forall i :: 0 <= i < |data| ==>
           && CopiesStation(docs[i], data[i])
           && docs[i].addressInfo == FindAddress(addresses, data[i].AddressInfo.ID)
           && docs[i].connections == ConnectionRefs(connectionList, data[i].Connections)
           && docs[i].internalId == (if data[i].ID in store.stations then store.stations[data[i].ID].internalId else gen(base + i))
  {
    var ids := StationIds(data);
    var rs := Lookups(store.stations, faults.station, ids);
    StageOutcome(store.stations, faults.station, ids);
    ResolvedLookups(store.stations, faults.station, ids);
    var found := Resolved(rs);
    var docs := StationDocs(data, addresses, connectionList, found, base, gen);
    assert StationStage(data, addresses, connectionList, store, faults, gen) == Ok(docs);
    StationDocsFields(data, addresses, connectionList, found, base, gen);
  }

  /** The references each station document holds. */
  lemma {:induction false} StationStageReferences(data: seq<ChargingStation>, addresses: seq<AddressDoc>, connectionList: seq<ConnectionDoc>,
                               store: Store, faults: LookupFaults, gen: IdSupply)
    requires StationStage(data, addresses, connectionList, store, faults, gen).Ok?
    ensures var docs := StationStage(data, addresses, connectionList, store, faults, gen).value;
      && |docs| == |data|
      && forall i :: 0 <= i < |data| ==>
           && docs[i].addressInfo == FindAddress(addresses, data[i].AddressInfo.ID)
           && docs[i].connections == ConnectionRefs(connectionList, data[i].Connections)
  {
    var rs := Lookups(store.stations, faults.station, StationIds(data));
    StageOutcome(store.stations, faults.station, StationIds(data));
    var found := Resolved(rs);
    var base := |data| + |Flatten(data)|;
    var docs := StationDocs(data, addresses, connectionList, found, base, gen);
    assert StationStage(data, addresses, connectionList, store, faults, gen) == Ok(docs);
    forall i | 0 <= i < |data|
      ensures docs[i].addressInfo == FindAddress(addresses, data[i].AddressInfo.ID)
      ensures docs[i].connections == ConnectionRefs(connectionList, data[i].Connections)
    {
      assert docs[i] == BuildStation(data[i], addresses, connectionList, found[i], gen(base + i));
    }
  }

  /** The three lists of a successful normalization. */
  lemma {:induction false} NormalizedParts(data: seq<ChargingStation>, store: Store, faults: LookupFaults, gen: IdSupply, b: Batch)
    requires Normalize(data, store, faults, gen) == Ok(b)
    ensures
      && AddressStage(data, store, faults, gen) == Ok(b.addresses)
      && ConnectionStage(data, store, faults, gen) == Ok(b.connectionList)
      && StationStage(data, b.addresses, b.connectionList, store, faults, gen) == Ok(b.chargingStationsList)
  {
  }

  /** A successful normalization yields one address per record, in input
      order, copying the catalog's fields; an address keeps the internal id of
      the stored address with its external id and otherwise takes the fresh id
      of its own slot. */
  lemma {:induction false} NormalizedAddresses(data: seq<ChargingStation>, store: Store, faults: LookupFaults, gen: IdSupply, b: Batch)
    requires Normalize(data, store, faults, gen) == Ok(b)
    ensures
      && |b.addresses| == |data|
      && forall i :: 0 <= i < |data| ==>
           var a := data[i].AddressInfo;
           && CopiesAddress(b.addresses[i], a)
           && b.addresses[i].internalId == (if a.ID in store.addresses then store.addresses[a.ID].internalId else gen(i))
  {
    NormalizedParts(data, store, faults, gen, b);
    AddressStageDocuments(data, store, faults, gen);
  }

  /** One connection document per connection of the flattened list, in that
      order, with the same reuse-or-fresh rule (slots after the addresses'). */
  lemma {:induction false} NormalizedConnections(data: seq<ChargingStation>, store: Store, faults: LookupFaults, gen: IdSupply, b: Batch)
    requires Normalize(data, store, faults, gen) == Ok(b)
    ensures var flat := Flatten(data);
      && |b.connectionList| == |flat|
      && forall j :: 0 <= j < |flat| ==>
           && CopiesConnection(b.connectionList[j], flat[j])
           && b.connectionList[j].internalId
                == (if flat[j].ID in store.connections then store.connections[flat[j].ID].internalId else gen(|data| + j))
  {
    NormalizedParts(data, store, faults, gen, b);
    ConnectionStageDocuments(data, store, faults, gen);
  }

  /** One station document per record, in input order, copying the catalog's
      scalar fields, with the same reuse-or-fresh rule (slots after the
      connections'). */
  lemma {:induction false} NormalizedStations(data: seq<ChargingStation>, store: Store, faults: LookupFaults, gen: IdSupply, b: Batch, base: nat)
    requires base == |data| + |Flatten(data)|
    requires Normalize(data, store, faults, gen) == Ok(b)
    ensures
      && |b.chargingStationsList| == |data|
      && forall i :: 0 <= i < |data| ==>
           && CopiesStation(b.chargingStationsList[i], data[i])
           && b.chargingStationsList[i].internalId
                == (if data[i].ID in store.stations then store.stations[data[i].ID].internalId else gen(base + i))
  {
    NormalizedParts(data, store, faults, gen, b);
    StationStageDocuments(data, b.addresses, b.connectionList, store, faults, gen, base);
  }

  /** The lengths of the three lists of a successful normalization. */
  lemma {:induction false} BatchLengths(data: seq<ChargingStation>, store: Store, faults: LookupFaults, gen: IdSupply, b: Batch)
    requires Normalize(data, store, faults, gen) == Ok(b)
    ensures |b.addresses| == |b.chargingStationsList| == |data| && |b.connectionList| == |Flatten(data)|
  {
    NormalizedAddresses(data, store, faults, gen, b);
    NormalizedConnections(data, store, faults, gen, b);
    NormalizedStations(data, store, faults, gen, b, |data| + |Flatten(data)|);
  }

  /** An address that no stored address matched takes the fresh id of its
      slot, the record's position. */
  lemma {:induction false} FreshAddressSlot(data: seq<ChargingStation>, store: Store, faults: LookupFaults, gen: IdSupply, b: Batch, i: nat)
    requires Normalize(data, store, faults, gen) == Ok(b)
    requires i < |data| && data[i].AddressInfo.ID !in store.addresses
    ensures i < |b.addresses| && b.addresses[i].internalId == gen(i)
  {
    NormalizedAddresses(data, store, faults, gen, b);
  }

  /** A connection that no stored connection matched takes the fresh id of
      its slot, after the addresses' slots. */
  lemma {:induction false} FreshConnectionSlot(data: seq<ChargingStation>, store: Store, faults: LookupFaults, gen: IdSupply, b: Batch, j: nat)
    requires Normalize(data, store, faults, gen) == Ok(b)
    requires j < |Flatten(data)| && Flatten(data)[j].ID !in store.connections
    ensures j < |b.connectionList| && b.connectionList[j].internalId == gen(|data| + j)
  {
    NormalizedConnections(data, store, faults, gen, b);
  }

  /** A station that no stored station matched takes the fresh id of its
      slot, after the connections' slots. */
  lemma {:induction false} FreshStationSlot(data: seq<ChargingStation>, store: Store, faults: LookupFaults, gen: IdSupply, b: Batch,
                                            base: nat, i: nat)
    requires base == |data| + |Flatten(data)|
    requires Normalize(data, store, faults, gen) == Ok(b)
    requires i < |data| && data[i].ID !in store.stations
    ensures i < |b.chargingStationsList| && b.chargingStationsList[i].internalId == gen(base + i)
  {
    NormalizedStations(data, store, faults, gen, b, base);
  }

  /** With a supply that never repeats an id, the ids generated by one
      normalization are all different within each list: no two fresh
      documents of a list share an internal id. */
  lemma {:induction false} FreshIdsDistinct(data: seq<ChargingStation>, store: Store, faults: LookupFaults, gen: IdSupply, b: Batch)
    requires Injective(gen)
    requires Normalize(data, store, faults, gen) == Ok(b)
    ensures |b.addresses| == |b.chargingStationsList| == |data| && |b.connectionList| == |Flatten(data)|
    ensures forall i, j ::
              0 <= i < j < |data| && data[i].AddressInfo.ID !in store.addresses && data[j].AddressInfo.ID !in store.addresses
              ==> b.addresses[i].internalId != b.addresses[j].internalId
    ensures forall i, j ::
              0 <= i < j < |Flatten(data)| && Flatten(data)[i].ID !in store.connections && Flatten(data)[j].ID !in store.connections
              ==> b.connectionList[i].internalId != b.connectionList[j].internalId
    ensures forall i, j ::
              0 <= i < j < |data| && data[i].ID !in store.stations && data[j].ID !in store.stations
              ==> b.chargingStationsList[i].internalId != b.chargingStationsList[j].internalId
  {
    var flat := Flatten(data);
    BatchLengths(data, store, faults, gen, b);
    forall i, j | 0 <= i < j < |data| && data[i].AddressInfo.ID !in store.addresses && data[j].AddressInfo.ID !in store.addresses
      ensures b.addresses[i].internalId != b.addresses[j].internalId
    {
      FreshAddressSlot(data, store, faults, gen, b, i);
      FreshAddressSlot(data, store, faults, gen, b, j);
    }
    forall i, j | 0 <= i < j < |flat| && flat[i].ID !in store.connections && flat[j].ID !in store.connections
      ensures b.connectionList[i].internalId != b.connectionList[j].internalId
    {
      FreshConnectionSlot(data, store, faults, gen, b, i);
      FreshConnectionSlot(data, store, faults, gen, b, j);
    }
    forall i, j | 0 <= i < j < |data| && data[i].ID !in store.stations && data[j].ID !in store.stations
      ensures b.chargingStationsList[i].internalId != b.chargingStationsList[j].internalId
    {
      FreshStationSlot(data, store, faults, gen, b, |data| + |flat|, i);
      FreshStationSlot(data, store, faults, gen, b, |data| + |flat|, j);
    }
  }

  /** Nor does a fresh address share its internal id with a fresh connection, */
  lemma {:induction false} FreshAddressConnectionApart(data: seq<ChargingStation>, store: Store, faults: LookupFaults, gen: IdSupply, b: Batch)
    requires Injective(gen)
    requires Normalize(data, store, faults, gen) == Ok(b)
    ensures |b.addresses| == |data| && |b.connectionList| == |Flatten(data)|
    ensures forall i, j ::
              0 <= i < |data| && 0 <= j < |Flatten(data)| && data[i].AddressInfo.ID !in store.addresses && Flatten(data)[j].ID !in store.connections
              ==> b.addresses[i].internalId != b.connectionList[j].internalId
  {
    var flat := Flatten(data);
    BatchLengths(data, store, faults, gen, b);
    forall i, j | 0 <= i < |data| && 0 <= j < |flat| && data[i].AddressInfo.ID !in store.addresses && flat[j].ID !in store.connections
      ensures b.addresses[i].internalId != b.connectionList[j].internalId
    {
      FreshAddressSlot(data, store, faults, gen, b, i);
      FreshConnectionSlot(data, store, faults, gen, b, j);
    }
  }

  /** with a fresh station, */
  lemma {:induction false} FreshAddressStationApart(data: seq<ChargingStation>, store: Store, faults: LookupFaults, gen: IdSupply, b: Batch)
    requires Injective(gen)
    requires Normalize(data, store, faults, gen) == Ok(b)
    ensures |b.addresses| == |b.chargingStationsList| == |data|
    ensures forall i, j ::
              0 <= i < |data| && 0 <= j < |data| && data[i].AddressInfo.ID !in store.addresses && data[j].ID !in store.stations
              ==> b.addresses[i].internalId != b.chargingStationsList[j].internalId
  {
    var base := |data| + |Flatten(data)|;
    BatchLengths(data, store, faults, gen, b);
    forall i, j | 0 <= i < |data| && 0 <= j < |data| && data[i].AddressInfo.ID !in store.addresses && data[j].ID !in store.stations
      ensures b.addresses[i].internalId != b.chargingStationsList[j].internalId
    {
      FreshAddressSlot(data, store, faults, gen, b, i);
      FreshStationSlot(data, store, faults, gen, b, base, j);
    }
  }

  /** and a fresh connection none with a fresh station. */
  lemma {:induction false} FreshConnectionStationApart(data: seq<ChargingStation>, store: Store, faults: LookupFaults, gen: IdSupply, b: Batch)
    requires Injective(gen)
    requires Normalize(data, store, faults, gen) == Ok(b)
    ensures |b.chargingStationsList| == |data| && |b.connectionList| == |Flatten(data)|
    ensures forall i, j ::
              0 <= i < |Flatten(data)| && 0 <= j < |data| && Flatten(data)[i].ID !in store.connections && data[j].ID !in store.stations
              ==> b.connectionList[i].internalId != b.chargingStationsList[j].internalId
  {
    var flat := Flatten(data);
    var base := |data| + |flat|;
    BatchLengths(data, store, faults, gen, b);
    forall i, j | 0 <= i < |flat| && 0 <= j < |data| && flat[i].ID !in store.connections && data[j].ID !in store.stations
      ensures b.connectionList[i].internalId != b.chargingStationsList[j].internalId
    {
      FreshConnectionSlot(data, store, faults, gen, b, i);
      FreshStationSlot(data, store, faults, gen, b, base, j);
    }
  }

  /** The position of the first occurrence of an id. */
  function FirstIndex(ids: seq<int>, id: int): (k: nat)
    requires id in ids
    ensures k < |ids| && ids[k] == id && forall l :: 0 <= l < k ==> ids[l] != id
    decreases |ids|
  {
    if ids[0] == id then 0 else 1 + FirstIndex(ids[1..], id)
  }

  /** `find` returns the id of the first address with the given id, and
      nothing when no address has it. */
  lemma {:induction false} FindAddressFinds(addresses: seq<AddressDoc>, id: int)
    ensures FindAddress(addresses, id).None? <==> forall k :: 0 <= k < |addresses| ==> addresses[k].id != id
    ensures forall k :: 0 <= k < |addresses| && addresses[k].id == id && (forall l :: 0 <= l < k ==> addresses[l].id != id)
              ==> FindAddress(addresses, id) == Some(addresses[k].internalId)
    decreases |addresses|
  {
    if addresses != [] && addresses[0].id != id {
      FindAddressFinds(addresses[1..], id);
      assert forall k :: 1 <= k < |addresses| ==> addresses[1..][k - 1] == addresses[k];
    }
  }

  /** Each station points at the address built for the FIRST record with the
      same address id, which is never a later record. */
  lemma {:induction false} AddressReference(data: seq<ChargingStation>, store: Store, faults: LookupFaults, gen: IdSupply, b: Batch, i: nat)
    requires Normalize(data, store, faults, gen) == Ok(b)
    requires i < |data|
    ensures var k := FirstIndex(AddressIds(data), data[i].AddressInfo.ID);
      && k <= i
      && b.chargingStationsList[i].addressInfo
           == Some(b.addresses[k].internalId)
  {
    var ids := AddressIds(data);
    var id := data[i].AddressInfo.ID;
    assert ids[i] == id;
    var k := FirstIndex(ids, id);
    NormalizedAddresses(data, store, faults, gen, b);
    assert StationStage(data, b.addresses, b.connectionList, store, faults, gen) == Ok(b.chargingStationsList) by {
      NormalizedParts(data, store, faults, gen, b);
    }
    StationStageReferences(data, b.addresses, b.connectionList, store, faults, gen);
    FindAddressFinds(b.addresses, id);
    forall l | 0 <= l < k
      ensures b.addresses[l].id != id
    {
      assert b.addresses[l].id == ids[l];
    }
    assert b.addresses[k].id == id;
  }

  // ----- Connection references -----

  /** The ids of a list of documents, in order. */
  function InternalIds(docs: seq<ConnectionDoc>): (us: seq<Uuid>)
    ensures |us| == |docs| && forall k :: 0 <= k < |docs| ==> us[k] == docs[k].internalId
  {
    seq(|docs|, k requires 0 <= k < |docs| => docs[k].internalId)
  }

  lemma {:induction false} ConnectionRefsAppend(a: seq<ConnectionDoc>, b: seq<ConnectionDoc>, cs: seq<Connection>)
    ensures ConnectionRefs(a + b, cs) == ConnectionRefs(a, cs) + ConnectionRefs(b, cs)
    decreases |a|
  {
    if a == [] {
      assert a + b == b;
    } else {
      assert (a + b)[0] == a[0] && (a + b)[1..] == a[1..] + b;
      ConnectionRefsAppend(a[1..], b, cs);
    }
  }

  /** The filter keeps exactly the documents whose id is among the given
      connections' ids. */
  lemma {:induction false} ConnectionRefsMembers(list: seq<ConnectionDoc>, cs: seq<Connection>)
    ensures forall u :: u in ConnectionRefs(list, cs) <==>
      exists j :: 0 <= j < |list| && list[j].internalId == u && HasConnectionId(cs, list[j].id)
    decreases |list|
  {
    if list != [] {
      ConnectionRefsMembers(list[1..], cs);
      assert forall j :: 1 <= j < |list| ==> list[1..][j - 1] == list[j];
    }
  }

  lemma {:induction false} ConnectionRefsKeepsAll(list: seq<ConnectionDoc>, cs: seq<Connection>)
    requires forall k :: 0 <= k < |list| ==> HasConnectionId(cs, list[k].id)
    ensures ConnectionRefs(list, cs) == InternalIds(list)
    decreases |list|
  {
    if list != [] {
      ConnectionRefsKeepsAll(list[1..], cs);
      assert InternalIds(list) == [list[0].internalId] + InternalIds(list[1..]);
    }
  }

  lemma {:induction false} ConnectionRefsDropsAll(list: seq<ConnectionDoc>, cs: seq<Connection>)
    requires forall k :: 0 <= k < |list| ==> !HasConnectionId(cs, list[k].id)
    ensures ConnectionRefs(list, cs) == []
    decreases |list|
  {
    if list != [] {
      ConnectionRefsDropsAll(list[1..], cs);
    }
  }

  /** No id occurs twice: the first does not occur again, and so on down
      the list. */
  predicate DistinctIds(ids: seq<int>)
    decreases |ids|
  {
    |ids| == 0 || (ids[0] !in ids[1..] && DistinctIds(ids[1..]))
  }

  /** Any two positions of a list without repeats hold different ids. */
  lemma {:induction false} DistinctIdsApart(ids: seq<int>, k: nat, l: nat)
    requires DistinctIds(ids)
    requires k < l < |ids|
    ensures ids[k] != ids[l]
  {
    if k == 0 {
      assert ids[l] == ids[1..][l - 1];
    } else {
      DistinctIdsApart(ids[1..], k - 1, l - 1);
    }
  }

  /** A block of the list whose ids are exactly the given connections' ids:
      each document of the block is kept by the filter. */
  lemma {:induction false} BlockKept(list: seq<ConnectionDoc>, cs: seq<Connection>, lo: nat)
    requires lo + |cs| <= |list|
    requires forall m :: 0 <= m < |cs| ==> list[lo + m].id == cs[m].ID
    ensures forall j :: lo <= j < lo + |cs| ==> list[j].internalId in ConnectionRefs(list, cs)
  {
    ConnectionRefsMembers(list, cs);
    forall j | lo <= j < lo + |cs|
      ensures list[j].internalId in ConnectionRefs(list, cs)
    {
      assert cs[j - lo] in cs && list[lo + (j - lo)].id == cs[j - lo].ID;
    }
  }

  /** When no id of the list repeats, no document outside a block of the
      list carries the id of one of that block's connections. */
  lemma {:induction false} BlockUnique(list: seq<ConnectionDoc>, cs: seq<Connection>, lo: nat)
    requires lo + |cs| <= |list|
    requires forall m :: 0 <= m < |cs| ==> list[lo + m].id == cs[m].ID
    requires forall k, l :: 0 <= k < l < |list| ==> list[k].id != list[l].id
    ensures forall k :: 0 <= k < |list| && !(lo <= k < lo + |cs|) ==> !HasConnectionId(cs, list[k].id)
  {
    forall k | 0 <= k < |list| && !(lo <= k < lo + |cs|)
      ensures !HasConnectionId(cs, list[k].id)
    {
      forall m | 0 <= m < |cs|
        ensures cs[m].ID != list[k].id
      {
        assert list[lo + m].id == cs[m].ID;
        if lo + m < k { assert list[lo + m].id != list[k].id; } else { assert list[k].id != list[lo + m].id; }
      }
    }
  }

  /** A block of the list whose ids are the given connections' ids, with no
      document outside it carrying one of them: the filter keeps exactly that
      block, in order. */
  lemma {:induction false} BlockSelected(list: seq<ConnectionDoc>, cs: seq<Connection>, lo: nat)
    requires lo + |cs| <= |list|
    requires forall m :: 0 <= m < |cs| ==> list[lo + m].id == cs[m].ID
    requires forall k :: 0 <= k < |list| && !(lo <= k < lo + |cs|) ==> !HasConnectionId(cs, list[k].id)
    ensures ConnectionRefs(list, cs) == InternalIds(list[lo..lo + |cs|])
  {
    var hi := lo + |cs|;
    forall k | 0 <= k < hi - lo
      ensures HasConnectionId(cs, list[lo..hi][k].id)
    {
      assert cs[k] in cs && list[lo + k].id == cs[k].ID;
    }
    assert list == list[..lo] + list[lo..hi] + list[hi..];
    forall k | 0 <= k < |list[..lo]| ensures !HasConnectionId(cs, list[..lo][k].id) {
      assert list[..lo][k] == list[k];
    }
    forall k | 0 <= k < |list[hi..]| ensures !HasConnectionId(cs, list[hi..][k].id) {
      assert list[hi..][k] == list[hi + k];
    }
    ConnectionRefsAppend(list[..lo] + list[lo..hi], list[hi..], cs);
    ConnectionRefsAppend(list[..lo], list[lo..hi], cs);
    ConnectionRefsDropsAll(list[..lo], cs);
    ConnectionRefsDropsAll(list[hi..], cs);
    ConnectionRefsKeepsAll(list[lo..hi], cs);
  }

  /** Documents carrying, position by position, the ids of a list of
      connections, one record's connections being a block of that list: the
      documents of the block carry that record's ids. */
  lemma {:induction false} BlockIds(flat: seq<Connection>, list: seq<ConnectionDoc>, cs: seq<Connection>, lo: nat)
    requires |list| == |flat|
    requires forall j :: 0 <= j < |flat| ==> list[j].id == flat[j].ID
    requires lo + |cs| <= |flat| && flat[lo..lo + |cs|] == cs
    ensures forall m :: 0 <= m < |cs| ==> list[lo + m].id == cs[m].ID
  {
    forall m | 0 <= m < |cs| ensures list[lo + m].id == cs[m].ID {
      assert flat[lo..lo + |cs|][m] == flat[lo + m];
    }
  }

  /** The connection references of station i, as the filter computes them
      over the whole connection list. */
  lemma {:induction false} StationRefs(data: seq<ChargingStation>, store: Store, faults: LookupFaults, gen: IdSupply, b: Batch, i: nat)
    requires Normalize(data, store, faults, gen) == Ok(b)
    requires i < |data|
    ensures |b.chargingStationsList| == |data|
    ensures b.chargingStationsList[i].connections == ConnectionRefs(b.connectionList, data[i].Connections)
  {
    NormalizedParts(data, store, faults, gen, b);
    StationStageReferences(data, b.addresses, b.connectionList, store, faults, gen);
  }

  /** Where record i's connection documents sit in the list, and the station
      references computed over that list. */
  lemma {:induction false} StationConnectionBlock(data: seq<ChargingStation>, store: Store, faults: LookupFaults, gen: IdSupply, b: Batch, i: nat)
    requires Normalize(data, store, faults, gen) == Ok(b)
    requires i < |data|
    ensures Offset(data, i) + |data[i].Connections| == Offset(data, i + 1) <= |b.connectionList|
    ensures forall m :: 0 <= m < |data[i].Connections| ==>
      b.connectionList[Offset(data, i) + m].id == data[i].Connections[m].ID
    ensures b.chargingStationsList[i].connections == ConnectionRefs(b.connectionList, data[i].Connections)
  {
    FlattenLayout(data, i);
    ConnectionDocIds(data, store, faults, gen, b);
    BlockIds(Flatten(data), b.connectionList, data[i].Connections, Offset(data, i));
    StationRefs(data, store, faults, gen, b, i);
  }

  /** Every connection of a record is referenced by that record's station. */
  lemma {:induction false} OwnConnectionsReferenced(data: seq<ChargingStation>, store: Store, faults: LookupFaults, gen: IdSupply, b: Batch, i: nat)
    requires Normalize(data, store, faults, gen) == Ok(b)
    requires i < |data|
    ensures Offset(data, i + 1) <= |b.connectionList|
    ensures forall j :: Offset(data, i) <= j < Offset(data, i + 1) ==>
      b.connectionList[j].internalId in b.chargingStationsList[i].connections
  {
    StationConnectionBlock(data, store, faults, gen, b, i);
    BlockKept(b.connectionList, data[i].Connections, Offset(data, i));
  }

  /** Documents that carry, position by position, the ids of a list of
      connections none of whose ids repeats: outside a block of them that
      matches some connections, no document carries one of those ids. */
  lemma {:induction false} DistinctBlockForeign(flat: seq<Connection>, list: seq<ConnectionDoc>, cs: seq<Connection>, lo: nat)
    requires |list| == |flat|
    requires forall j :: 0 <= j < |flat| ==> list[j].id == flat[j].ID
    requires DistinctIds(ConnectionIds(flat))
    requires lo + |cs| <= |list|
    requires forall m :: 0 <= m < |cs| ==> list[lo + m].id == cs[m].ID
    ensures forall k :: 0 <= k < |list| && !(lo <= k < lo + |cs|) ==> !HasConnectionId(cs, list[k].id)
  {
    var ids := ConnectionIds(flat);
    forall k, l | 0 <= k < l < |list| ensures list[k].id != list[l].id {
      DistinctIdsApart(ids, k, l);
    }
    BlockUnique(list, cs, lo);
  }

  /** A list of connection documents carrying the flattened connections'
      ids, none repeated: filtering it by record i's connections selects
      exactly record i's block. */
  lemma {:induction false} RecordBlockSelected(data: seq<ChargingStation>, list: seq<ConnectionDoc>, i: nat)
    requires i < |data|
    requires |list| == |Flatten(data)|
    requires forall j :: 0 <= j < |list| ==> list[j].id == Flatten(data)[j].ID
    requires DistinctIds(ConnectionIds(Flatten(data)))
    ensures Offset(data, i) <= Offset(data, i + 1) <= |list|
    ensures ConnectionRefs(list, data[i].Connections) == InternalIds(list[Offset(data, i)..Offset(data, i + 1)])
  {
    var flat, cs := Flatten(data), data[i].Connections;
    var lo, hi := Offset(data, i), Offset(data, i + 1);
    FlattenLayout(data, i);
    forall m | 0 <= m < |cs| ensures list[lo + m].id == cs[m].ID {
      assert flat[lo..hi][m] == flat[lo + m];
    }
    DistinctBlockForeign(flat, list, cs, lo);
    BlockSelected(list, cs, lo);
  }

  /** The connection documents carry the flattened connections' ids, in
      order. */
  lemma {:induction false} ConnectionDocIds(data: seq<ChargingStation>, store: Store, faults: LookupFaults, gen: IdSupply, b: Batch)
    requires Normalize(data, store, faults, gen) == Ok(b)
    ensures |b.connectionList| == |Flatten(data)|
    ensures forall j :: 0 <= j < |b.connectionList| ==> b.connectionList[j].id == Flatten(data)[j].ID
  {
    NormalizedConnections(data, store, faults, gen, b);
  }

  /** With no connection id repeated across the catalog, each station
      references exactly its own record's connections, in their order. */
  lemma {:induction false} StationConnections(data: seq<ChargingStation>, store: Store, faults: LookupFaults, gen: IdSupply, b: Batch, i: nat)
    requires Normalize(data, store, faults, gen) == Ok(b)
    requires i < |data|
    requires DistinctIds(ConnectionIds(Flatten(data)))
    ensures Offset(data, i) <= Offset(data, i + 1) <= |b.connectionList|
    ensures b.chargingStationsList[i].connections == InternalIds(b.connectionList[Offset(data, i)..Offset(data, i + 1)])
  {
    StationConnectionBlock(data, store, faults, gen, b, i);
    ConnectionDocIds(data, store, faults, gen, b);
    RecordBlockSelected(data, b.connectionList, i);
  }
}
