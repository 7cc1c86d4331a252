/** Value types shared by the reconciliation engine: the dustbin record, its
    status and category enums, the fleet statistics and the channel-agnostic
    update record that every producer builds before notifying subscribers. */
module Types {

  datatype Option<+T> = None | Some(value: T)

  /** The four states a dustbin can display. */
  datatype Status = Normal | Warning | Critical | Servicing

  /** The waste category of a dustbin. */
  datatype BinType = General | Recyclable | Organic

  datatype Location = Location(lat: real, lng: real, address: string)

  /** One receptacle of the fleet. Times are milliseconds since the epoch. */
  datatype Dustbin = Dustbin(
    id: int,
    location: Location,
    fillLevel: int,
    capacity: int,
    lastUpdated: int,
    status: Status,
    batteryLevel: int,
    kind: BinType)

  /** Derived dashboard figures; the average is a real because the source divides. */
  datatype DustbinStats = DustbinStats(
    totalCollections: int,
    avgFillLevel: real,
    criticalBins: nat,
    efficiencyScore: int)

  /** The normalized update handed to subscribers. An absent battery or
      status is `None`; the timestamp is the source time of the record. */
  datatype BinUpdateData = BinUpdateData(
    binId: int,
    fillLevel: int,
    batteryLevel: Option<int>,
    status: Option<Status>,
    timestamp: int)

  /** The id of the one dustbin fed by the external sensor channels. */
  const LiveBinId: int := 1001

  /** Status from fill level: critical at 80 and above, warning at 50 and
      above, normal below. */
  function DeriveStatus(fill: int): (s: Status)
    ensures s == Critical <==> fill >= 80
    ensures s == Warning <==> 50 <= fill < 80
    ensures s == Normal <==> fill < 50
    ensures s != Servicing
  {
    if fill >= 80 then Critical
    else if fill >= 50 then Warning
    else Normal
  }

  /** JavaScript's `x || d` on an optional number: a missing value and a zero
      both fall back to the default. */
  function OrIfFalsy(x: Option<int>, default: int): (r: int)
    ensures x.Some? && x.value != 0 ==> r == x.value
    ensures x.None? || x.value == 0 ==> r == default
  {
    if x.Some? && x.value != 0 then x.value else default
  }
}
