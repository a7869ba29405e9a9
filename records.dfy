/** The raw catalog records (src/dto/ChargingStationDto.ts) and the three flat
    documents the importer stores (src/models/ChargingStationModel.ts). */
module Records {
  import opened Common

  /** Latitude, longitude and power are JavaScript numbers copied verbatim;
      nothing computes with them. */
  type Float = real

  /** The raw date text of a catalog record, and the Date object built from it
      by `new Date(...)`, treated as an opaque conversion. */
  type DateText = string
  datatype Date = DateFrom(source: DateText)

  datatype AddressInfo = AddressInfo(
    ID: int,
    Title: string,
    AddressLine1: string,
    Town: string,
    StateOrProvince: string,
    Postcode: string,
    CountryID: int,
    Latitude: Float,
    Longitude: Float,
    DistanceUnit: int
  )

  datatype Connection = Connection(
    ID: int,
    ConnectionTypeID: int,
    StatusTypeID: int,
    LevelID: int,
    PowerKW: Float,
    Quantity: int
  )

  datatype ChargingStation = ChargingStation(
    IsRecentlyVerified: bool,
    DateLastVerified: DateText,
    ID: int,
    UUID: string,
    DataProviderID: int,
    OperatorID: int,
    UsageTypeID: int,
    AddressInfo: AddressInfo,
    Connections: seq<Connection>,
    NumberOfPoints: int,
    StatusTypeID: int,
    DateLastStatusUpdate: DateText,
    DataQualityLevel: int,
    DateCreated: DateText,
    SubmissionStatusTypeID: int
  )

  /** A stored address; `internalId` is the document's `_id`. */
  datatype AddressDoc = AddressDoc(
    id: int,
    title: string,
    addressLine1: string,
    town: string,
    stateOrProvince: string,
    postcode: string,
    countryId: int,
    latitude: Float,
    longitude: Float,
    distanceUnit: int,
    internalId: Uuid
  )

  datatype ConnectionDoc = ConnectionDoc(
    id: int,
    connectionTypeId: int,
    statusTypeId: int,
    levelId: int,
    powerKW: Float,
    quantity: int,
    internalId: Uuid
  )

  /** A stored station. `addressInfo` is the `_id` of its address (undefined
      when no address matched) and `connections` the `_id`s of its connections. */
  datatype StationDoc = StationDoc(
    isRecentlyVerified: bool,
    dateLastVerified: Date,
    id: int,
    uuid: string,
    dataProviderId: int,
    operatorId: int,
    usageTypeId: int,
    addressInfo: Option<Uuid>,
    connections: seq<Uuid>,
    numberOfPoints: int,
    statusTypeId: int,
    dateLastStatusUpdate: Date,
    dataQualityLevel: int,
    dateCreated: Date,
    submissionStatusTypeId: int,
    internalId: Uuid
  )

  /** The external id each document is upserted by. */
  function AddressKey(d: AddressDoc): int { d.id }
  function ConnectionKey(d: ConnectionDoc): int { d.id }
  function StationKey(d: StationDoc): int { d.id }

  /** The three lists importDataToDB hands to bulkUpsert. */
  datatype Batch = Batch(
    addresses: seq<AddressDoc>,
    connectionList: seq<ConnectionDoc>,
    chargingStationsList: seq<StationDoc>
  )

  /** The three collections, each keyed by external id. */
  datatype Store = Store(
    addresses: map<int, AddressDoc>,
    connections: map<int, ConnectionDoc>,
    stations: map<int, StationDoc>
  )
}
