/** Shared data model of the dashboard's session and charger records (src/types/types.ts). */
module Types {

  datatype Option<T> = None | Some(value: T) {
    function GetOr(default: T): T {
      match this
      case Some(v) => v
      case None => default
    }
  }

  /** A CHARGING_ENTRY: either one raw current sample of a session or one hour of its
      reconstructed energy. Currents are in amperes, energy in Wh, prices in currency units.
      The JavaScript `date` field (a Date built from `timestamp`) is not modelled. */
  datatype ChargingEntry = ChargingEntry(
    timestamp: int,
    offered: Option<real>,
    usage: Option<real>,
    wh: real,
    price: real,
    tariffPrice: real,
    spotPrice: real,
    kwhTotal: Option<real>)

  /** The two current readings a sample may carry. */
  datatype Reading = Offered | Usage

  function ReadingOf(e: ChargingEntry, r: Reading): Option<real> {
    match r
    case Offered => e.offered
    case Usage => e.usage
  }

  /** The value of the latest entry whose reading `r` is non-null, if any. */
  function LatestReading(h: seq<ChargingEntry>, r: Reading): (v: Option<real>)
    ensures v.None? <==> forall i :: 0 <= i < |h| ==> ReadingOf(h[i], r).None?
    ensures v.Some? ==>
      exists i :: 0 <= i < |h| && ReadingOf(h[i], r) == v &&
        forall j :: i < j < |h| ==> ReadingOf(h[j], r).None?
  {
    if h == [] then None
    else if ReadingOf(h[|h| - 1], r).Some? then
      ReadingOf(h[|h| - 1], r)
    else
      var v := LatestReading(h[..|h| - 1], r);
      assert forall i :: 0 <= i < |h| - 1 ==> h[..|h| - 1][i] == h[i];
      v
  }

  /** Extending a prefix by one entry: a non-null reading at `i` is the latest of the prefix
      ending there; a null one defers to the shorter prefix. */
  lemma LatestReadingStep(h: seq<ChargingEntry>, i: nat, r: Reading)
    requires i < |h|
    ensures LatestReading(h[..i + 1], r) ==
      if ReadingOf(h[i], r).Some? then ReadingOf(h[i], r) else LatestReading(h[..i], r)
  {
    assert h[..i + 1][..i] == h[..i];
  }

  /** The value of the earliest entry whose reading `r` is non-null, if any. */
  function FirstReading(h: seq<ChargingEntry>, r: Reading): (v: Option<real>)
    ensures v.None? <==> forall i :: 0 <= i < |h| ==> ReadingOf(h[i], r).None?
    ensures v.Some? ==>
      exists i :: 0 <= i < |h| && ReadingOf(h[i], r) == v &&
        forall j :: 0 <= j < i ==> ReadingOf(h[j], r).None?
  {
    if h == [] then None
    else if ReadingOf(h[0], r).Some? then
      ReadingOf(h[0], r)
    else
      var v := FirstReading(h[1..], r);
      assert forall i :: 1 <= i < |h| ==> h[1..][i - 1] == h[i];
      v
  }

  /** Sum of a sequence of reals, accumulated from the front as the source's loops do. */
  function Sum(s: seq<real>): real {
    if s == [] then 0.0 else Sum(s[..|s| - 1]) + s[|s| - 1]
  }

  /** The fields of a SESSION that the energy and pricing pipeline writes. */
  datatype SessionState = SessionState(
    endTime: Option<int>,
    chargingHistory: seq<ChargingEntry>,
    hourlyHistory: Option<seq<ChargingEntry>>,
    tariffPrice: real,
    spotPrice: real,
    price: real)

  /** A SESSION record as received from the backend; the pipeline updates it in place. */
  class Session {
    const sessionId: string
    const chargerId: string
    const groupId: string
    const startTime: int
    const energyMeter: real
    var endTime: Option<int>
    var chargingHistory: seq<ChargingEntry>
    var hourlyHistory: Option<seq<ChargingEntry>>
    var tariffPrice: real
    var spotPrice: real
    var price: real

    constructor (sessionId: string, chargerId: string, groupId: string, startTime: int,
                 endTime: Option<int>, energyMeter: real, chargingHistory: seq<ChargingEntry>)
      ensures this.sessionId == sessionId && this.chargerId == chargerId && this.groupId == groupId
      ensures this.startTime == startTime && this.endTime == endTime && this.energyMeter == energyMeter
      ensures this.chargingHistory == chargingHistory && this.hourlyHistory == None
      ensures tariffPrice == 0.0 && spotPrice == 0.0 && price == 0.0
    {
      this.sessionId := sessionId;
      this.chargerId := chargerId;
      this.groupId := groupId;
      this.startTime := startTime;
      this.endTime := endTime;
      this.energyMeter := energyMeter;
      this.chargingHistory := chargingHistory;
      this.hourlyHistory := None;
      tariffPrice, spotPrice, price := 0.0, 0.0, 0.0;
    }

    function State(): SessionState
      reads this
    {
      SessionState(endTime, chargingHistory, hourlyHistory, tariffPrice, spotPrice, price)
    }
  }

  /** A connector's ongoing transaction; its charging history is the array the status
      view appends to. */
  class Transaction {
    const idTag: string
    const userName: string
    const startTime: int
    const usageMeter: Option<real>
    const energyMeter: real
    var chargingHistory: seq<ChargingEntry>

    constructor (idTag: string, userName: string, startTime: int, usageMeter: Option<real>,
                 energyMeter: real, chargingHistory: seq<ChargingEntry>)
      ensures this.idTag == idTag && this.userName == userName && this.startTime == startTime
      ensures this.usageMeter == usageMeter && this.energyMeter == energyMeter
      ensures this.chargingHistory == chargingHistory
    {
      this.idTag := idTag;
      this.userName := userName;
      this.startTime := startTime;
      this.usageMeter := usageMeter;
      this.energyMeter := energyMeter;
      this.chargingHistory := chargingHistory;
    }
  }

  datatype Connector = Connector(
    status: Option<string>,
    priority: int,
    offered: real,
    transaction: Option<Transaction>)

  /** A CHARGER; `connectors` lists the entries of its connector object in key order. */
  datatype Charger = Charger(
    chargerId: string,
    alias: string,
    description: string,
    groupId: string,
    connectors: seq<(string, Connector)>,
    networkConnected: bool)
}
