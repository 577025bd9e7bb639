/** Danish electricity pricing of the hourly energy entries (src/common/EPricing.tsx): a
    time-of-use grid tariff plus the zone's hourly spot price. */
module EPricing {
  import opened Types
  import SessionSupport

  /** Electricity duty 0.72 plus net and system tariffs 0.061 + 0.074, per kWh ex-VAT. */
  const BaseTariff: real := 0.72 + 0.135
  /** Distribution tariff per slot (night, day, peak), October to March. */
  const WinterTariff: seq<real> := [0.0976, 0.2929, 0.8788]
  /** Distribution tariff per slot (night, day, peak), April to September. */
  const SummerTariff: seq<real> := [0.0976, 0.1465, 0.3808]
  /** Supplier add-on per kWh. */
  const AddonPrice: real := 0.05

  const DefaultZone: string := "DK2"
  const Currency: string := "DKK"

  /** The local hour of day (0-23) and the 0-based month (0-11) of an hour start. */
  datatype LocalTime = LocalTime(hour: int, month: int)

  /** Spot prices per zone, keyed by the Unix time of the hour start. */
  type ZonePrices = map<string, map<int, real>>

  // ---------------------------------------------------------------------------------------
  // Tariff
  // ---------------------------------------------------------------------------------------

  /** The tariff slot of an hour: 0 for the night, 2 for the evening peak, 1 otherwise. */
  function TimeSlot(hour: int): (slot: nat)
    ensures slot < 3
    ensures slot == 0 <==> 0 <= hour < 6
    ensures slot == 2 <==> 17 <= hour < 21
  {
    if 0 <= hour < 6 then 0 else if 17 <= hour < 21 then 2 else 1
  }

  /** April (3) to September (8) use the summer table. */
  predicate IsSummer(month: int) {
    3 <= month <= 8
  }

  function Tariff(lt: LocalTime): (t: real)
    ensures 1.0026 <= t <= 1.7838
  {
    var table := if IsSummer(lt.month) then SummerTariff else WinterTariff;
    table[TimeSlot(lt.hour)] + BaseTariff + AddonPrice
  }

  /** The six tariff values: the night rate is the same all year, the winter evening peak
      is the dearest hour and the summer table is never dearer than the winter one. */
  lemma TariffValues(lt: LocalTime)
    ensures TimeSlot(lt.hour) == 0 ==> Tariff(lt) == 1.0026
    ensures TimeSlot(lt.hour) == 1 ==> Tariff(lt) == if IsSummer(lt.month) then 1.0515 else 1.1979
    ensures TimeSlot(lt.hour) == 2 ==> Tariff(lt) == if IsSummer(lt.month) then 1.2858 else 1.7838
    ensures Tariff(lt) == 1.7838 <==> !IsSummer(lt.month) && 17 <= lt.hour < 21
    ensures IsSummer(lt.month) ==> Tariff(lt) <= Tariff(LocalTime(lt.hour, 0))
  {
  }

  /** total_kwh_price: the spot price and the tariff of an hour, or (0, 0) when the zone has
      no prices or no price for that hour. */
  function TotalKwhPrice(prices: ZonePrices, hourStart: int, lt: LocalTime, zone: string): (r: (real, real))
    ensures zone in prices && hourStart in prices[zone] ==> r == (prices[zone][hourStart], Tariff(lt))
    ensures zone !in prices || hourStart !in prices[zone] ==> r == (0.0, 0.0)
  {
    if zone !in prices || hourStart !in prices[zone] then (0.0, 0.0)
    else (prices[zone][hourStart], Tariff(lt))
  }

  /** A missing spot price zeroes the tariff as well: the tariff part is zero exactly when
      the price is missing. */
  lemma MissingPriceZeroesTariff(prices: ZonePrices, hourStart: int, lt: LocalTime, zone: string)
    ensures TotalKwhPrice(prices, hourStart, lt, zone).1 == 0.0 <==>
      zone !in prices || hourStart !in prices[zone]
  {
  }

  // ---------------------------------------------------------------------------------------
  // Zone of a charger
  // ---------------------------------------------------------------------------------------

  /** `sub` occurs in `s` at index `i`. */
  predicate OccursAt(s: string, sub: string, i: int) {
    0 <= i && i + |sub| <= |s| && s[i..i + |sub|] == sub
  }

  /** String.prototype.includes, scanning from the front. */
  function Includes(s: string, sub: string): (b: bool)
    ensures b ==> |sub| <= |s|
    ensures |sub| <= |s| && s[..|sub|] == sub ==> b
    decreases |s|
  {
    if |s| < |sub| then false
    else s[..|sub|] == sub || Includes(s[1..], sub)
  }

  /** The scan finds `sub` exactly when it occurs somewhere in `s`. */
  lemma {:induction false} IncludesIffOccurs(s: string, sub: string)
    ensures Includes(s, sub) <==> exists i :: OccursAt(s, sub, i)
    decreases |s|
  {
    if |s| < |sub| {
    } else if s[..|sub|] == sub {
      assert OccursAt(s, sub, 0);
    } else {
      IncludesIffOccurs(s[1..], sub);
      if Includes(s[1..], sub) {
        var i :| OccursAt(s[1..], sub, i);
        assert s[1..][i..i + |sub|] == s[i + 1..i + 1 + |sub|];
        assert OccursAt(s, sub, i + 1);
      }
      if exists i :: OccursAt(s, sub, i) {
        var i :| OccursAt(s, sub, i);
        assert i != 0;
        assert s[1..][i - 1..i - 1 + |sub|] == s[i..i + |sub|];
        assert OccursAt(s[1..], sub, i - 1);
      }
    }
  }

  /** The price zone of a charger from its description. */
  function ZoneFor(description: string): (zone: string)
    ensures zone == "DK1" || zone == DefaultZone
  {
    if Includes(description, "DK1") then "DK1" else DefaultZone
  }

  /** "DK1" is chosen exactly when the description contains it; anything else, the empty
      description of an unknown charger included, falls back to "DK2". */
  lemma ZoneIffDK1(description: string)
    ensures ZoneFor(description) == "DK1" <==> exists i :: OccursAt(description, "DK1", i)
    ensures ZoneFor("") == DefaultZone
  {
    IncludesIffOccurs(description, "DK1");
  }

  /** The description the last charger with id `id` carries, if any. */
  function LastDescription(chargers: seq<Charger>, id: string): (d: Option<string>)
    ensures d.None? <==> forall i :: 0 <= i < |chargers| ==> chargers[i].chargerId != id
    ensures d.Some? ==>
      exists i :: (0 <= i < |chargers| && chargers[i].chargerId == id && chargers[i].description == d.value &&
        forall j :: i < j < |chargers| ==> chargers[j].chargerId != id)
  {
    if chargers == [] then None
    else if chargers[|chargers| - 1].chargerId == id then Some(chargers[|chargers| - 1].description)
    else
      var d := LastDescription(chargers[..|chargers| - 1], id);
      assert forall i :: 0 <= i < |chargers| - 1 ==> chargers[..|chargers| - 1][i] == chargers[i];
      d
  }

  /** The charger-description map: each charger sets its id's entry, so the last one wins. */
  method DescriptionMap(chargers: seq<Charger>) returns (m: map<string, string>)
    ensures forall id :: id in m <==> LastDescription(chargers, id).Some?
    ensures forall id :: id in m ==> m[id] == LastDescription(chargers, id).value
  {
    m := map[];
    var i := 0;
    while i < |chargers|
      invariant 0 <= i <= |chargers|
      invariant forall id :: id in m <==> LastDescription(chargers[..i], id).Some?
      invariant forall id :: id in m ==> m[id] == LastDescription(chargers[..i], id).value
    {
      assert chargers[..i + 1][..i] == chargers[..i];
      m := m[chargers[i].chargerId := chargers[i].description];
      i := i + 1;
    }
    assert chargers[..i] == chargers;
  }

  /** The description looked up for a session's charger, "" when the charger is unknown. */
  function DescriptionOf(m: map<string, string>, id: string): string {
    if id in m then m[id] else ""
  }

  // ---------------------------------------------------------------------------------------
  // Pricing of the hourly entries
  // ---------------------------------------------------------------------------------------

  /** The prices of one hourly entry: an entry without energy is left as it is; otherwise its
      spot, tariff and total price are the unit prices times its energy in kWh. */
  function PricedEntry(e: ChargingEntry, prices: ZonePrices, zone: string, clock: int -> LocalTime): (r: ChargingEntry)
    ensures r.timestamp == e.timestamp && r.wh == e.wh && r.kwhTotal == e.kwhTotal
    ensures r.offered == e.offered && r.usage == e.usage
    ensures e.wh == 0.0 ==> r == e
    ensures e.wh != 0.0 ==> r.price == r.spotPrice + r.tariffPrice
  {
    if e.wh == 0.0 then e
    else
      var hour := SessionSupport.FloorHour(e.timestamp);
      var kwh := e.wh / 1000.0;
      var p := TotalKwhPrice(prices, hour, clock(hour), zone);
      var spot, tariff := p.0, p.1;
      SessionSupport.Distribute(spot, tariff, kwh);
      e.(spotPrice := spot * kwh, tariffPrice := tariff * kwh, price := (spot + tariff) * kwh)
  }

  lemma PricedEntryUnfold(e: ChargingEntry, prices: ZonePrices, zone: string, clock: int -> LocalTime,
                          hour: int, kwh: real, spot: real, tariff: real)
    requires e.wh != 0.0 && hour == SessionSupport.FloorHour(e.timestamp) && kwh == e.wh / 1000.0
    requires (spot, tariff) == TotalKwhPrice(prices, hour, clock(hour), zone)
    ensures PricedEntry(e, prices, zone, clock) ==
      e.(spotPrice := spot * kwh, tariffPrice := tariff * kwh, price := (spot + tariff) * kwh)
  {
  }

  /** A priced entry's spot and tariff prices are the hour's unit prices times its energy in
      kWh; an hour without a spot price leaves all three prices zero. */
  lemma PricedEntryPrices(e: ChargingEntry, prices: ZonePrices, zone: string, clock: int -> LocalTime)
    requires e.wh != 0.0
    ensures var hour := SessionSupport.FloorHour(e.timestamp);
      var r := PricedEntry(e, prices, zone, clock);
      && (zone in prices && hour in prices[zone] ==>
            r.spotPrice == prices[zone][hour] * (e.wh / 1000.0) &&
            r.tariffPrice == Tariff(clock(hour)) * (e.wh / 1000.0))
      && (zone !in prices || hour !in prices[zone] ==>
            r.spotPrice == 0.0 && r.tariffPrice == 0.0 && r.price == 0.0)
  {
  }

  /** Pricing reads only the timestamp and the energy, which it leaves alone, so pricing an
      entry twice is pricing it once. */
  lemma PricedEntryIdempotent(e: ChargingEntry, prices: ZonePrices, zone: string, clock: int -> LocalTime)
    ensures PricedEntry(PricedEntry(e, prices, zone, clock), prices, zone, clock) == PricedEntry(e, prices, zone, clock)
  {
  }

  function PricedHours(hh: seq<ChargingEntry>, prices: ZonePrices, zone: string, clock: int -> LocalTime): (r: seq<ChargingEntry>)
    ensures |r| == |hh|
    ensures forall k :: 0 <= k < |hh| ==> r[k] == PricedEntry(hh[k], prices, zone, clock)
  {
    seq(|hh|, k requires 0 <= k < |hh| => PricedEntry(hh[k], prices, zone, clock))
  }

  /** The three price fields an hourly entry carries. */
  datatype PriceField = TariffPrice | SpotPrice | TotalPrice

  function FieldOf(e: ChargingEntry, f: PriceField): real {
    match f
    case TariffPrice => e.tariffPrice
    case SpotPrice => e.spotPrice
    case TotalPrice => e.price
  }

  /** The sum of field `f` over the entries that carry energy (the ones the loop prices). */
  function SumPriced(es: seq<ChargingEntry>, f: PriceField): real {
    if es == [] then 0.0
    else SumPriced(es[..|es| - 1], f) + (if es[|es| - 1].wh == 0.0 then 0.0 else FieldOf(es[|es| - 1], f))
  }

  lemma SumPricedStep(es: seq<ChargingEntry>, i: nat, f: PriceField)
    requires i < |es|
    ensures SumPriced(es[..i + 1], f) ==
      SumPriced(es[..i], f) + (if es[i].wh == 0.0 then 0.0 else FieldOf(es[i], f))
  {
    assert es[..i + 1][..i] == es[..i];
  }

  /** The session total price is the spot total plus the tariff total. */
  lemma {:induction false} TotalIsSpotPlusTariff(hh: seq<ChargingEntry>, prices: ZonePrices, zone: string, clock: int -> LocalTime)
    ensures var r := PricedHours(hh, prices, zone, clock);
      SumPriced(r, TotalPrice) == SumPriced(r, SpotPrice) + SumPriced(r, TariffPrice)
  {
    if hh != [] {
      var r := PricedHours(hh, prices, zone, clock);
      var init := hh[..|hh| - 1];
      assert r[..|r| - 1] == PricedHours(init, prices, zone, clock);
      TotalIsSpotPlusTariff(init, prices, zone, clock);
    }
  }

  /** The session fields after price_session_data has priced it in zone `zone`. A session
      without an hourly history is left as it is. */
  function PricedState(st: SessionState, prices: ZonePrices, zone: string, clock: int -> LocalTime): (r: SessionState)
    ensures r.endTime == st.endTime && r.chargingHistory == st.chargingHistory
    ensures st.hourlyHistory.None? ==> r == st
  {
    match st.hourlyHistory
    case None => st
    case Some(hh) =>
      var r := PricedHours(hh, prices, zone, clock);
      st.(hourlyHistory := Some(r),
          tariffPrice := SumPriced(r, TariffPrice),
          spotPrice := SumPriced(r, SpotPrice),
          price := SumPriced(r, TotalPrice))
  }

  /** Pricing a session twice is pricing it once. */
  lemma PricedStateIdempotent(st: SessionState, prices: ZonePrices, zone: string, clock: int -> LocalTime)
    ensures PricedState(PricedState(st, prices, zone, clock), prices, zone, clock) == PricedState(st, prices, zone, clock)
  {
    if st.hourlyHistory.Some? {
      var hh := st.hourlyHistory.value;
      var r := PricedHours(hh, prices, zone, clock);
      forall k | 0 <= k < |hh|
        ensures PricedEntry(r[k], prices, zone, clock) == r[k]
      {
        PricedEntryIdempotent(hh[k], prices, zone, clock);
      }
      assert PricedHours(r, prices, zone, clock) == r;
    }
  }

  /** The per-hour loop of price_session_data: prices every entry with energy and sums the
      three prices over them. */
  method PriceHours(hh: seq<ChargingEntry>, prices: ZonePrices, zone: string, clock: int -> LocalTime)
    returns (r: seq<ChargingEntry>, totalTariffPrice: real, totalSpotPrice: real, totalPrice: real)
    ensures r == PricedHours(hh, prices, zone, clock)
    ensures totalTariffPrice == SumPriced(r, TariffPrice)
    ensures totalSpotPrice == SumPriced(r, SpotPrice)
    ensures totalPrice == SumPriced(r, TotalPrice)
  {
    ghost var target := PricedHours(hh, prices, zone, clock);
    totalPrice, totalTariffPrice, totalSpotPrice := 0.0, 0.0, 0.0;
    r := hh;
    var hi := 0;
    while hi < |r|
      invariant 0 <= hi <= |r| == |hh|
      invariant forall k :: 0 <= k < |hh| ==> r[k] == if k < hi then target[k] else hh[k]
      invariant totalTariffPrice == SumPriced(target[..hi], TariffPrice)
      invariant totalSpotPrice == SumPriced(target[..hi], SpotPrice)
      invariant totalPrice == SumPriced(target[..hi], TotalPrice)
    {
      SumPricedStep(target, hi, TariffPrice);
      SumPricedStep(target, hi, SpotPrice);
      SumPricedStep(target, hi, TotalPrice);
      var e := r[hi];
      if e.wh != 0.0 {
        var priced := PriceEntry(e, prices, zone, clock);
        r := r[hi := priced];
        totalTariffPrice := totalTariffPrice + priced.tariffPrice;
        totalSpotPrice := totalSpotPrice + priced.spotPrice;
        totalPrice := totalPrice + priced.price;
      }
      hi := hi + 1;
    }
    assert target[..hi] == target;
    assert r == target;
  }

  /** The body of the per-hour loop for an entry with energy: the hour's unit prices times
      the entry's kWh. */
  method PriceEntry(e: ChargingEntry, prices: ZonePrices, zone: string, clock: int -> LocalTime)
    returns (priced: ChargingEntry)
    requires e.wh != 0.0
    ensures priced == PricedEntry(e, prices, zone, clock)
  {
    var hour := SessionSupport.FloorHour(e.timestamp);
    var kwh := e.wh / 1000.0;
    var p := TotalKwhPrice(prices, hour, clock(hour), zone);
    var spot, tariff := p.0, p.1;
    priced := e.(spotPrice := spot * kwh, tariffPrice := tariff * kwh, price := (spot + tariff) * kwh);
    PricedEntryUnfold(e, prices, zone, clock, hour, kwh, spot, tariff);
  }

  /** price_session_data for one session: prices its hourly history and stores the three
      totals on the session. */
  method PriceSession(s: Session, prices: ZonePrices, zone: string, clock: int -> LocalTime)
    modifies s
    ensures s.State() == PricedState(old(s.State()), prices, zone, clock)
  {
    if s.hourlyHistory.None? {
      return;
    }
    var r, tariff, spot, total := PriceHours(s.hourlyHistory.value, prices, zone, clock);
    s.hourlyHistory := Some(r);
    s.tariffPrice := tariff;
    s.spotPrice := spot;
    s.price := total;
  }

  /** The zone price_session_data uses for a session's charger. */
  function SessionZone(chargers: seq<Charger>, chargerId: string): (z: string)
    ensures z == "DK1" || z == DefaultZone
    ensures (forall i :: 0 <= i < |chargers| ==> chargers[i].chargerId != chargerId) ==> z == DefaultZone
    ensures z == "DK1" <==>
      exists i :: 0 <= i < |chargers| && chargers[i].chargerId == chargerId &&
        (forall j :: i < j < |chargers| ==> chargers[j].chargerId != chargerId) &&
        Includes(chargers[i].description, "DK1")
  {
    var d := LastDescription(chargers, chargerId);
    ZoneFor(if d.Some? then d.value else "")
  }

  /** price_session_data: builds the description map and prices every session in the zone
      of its charger. An empty session list is returned untouched; a session listed twice
      ends as if priced once. */
  method PriceSessionData(sessions: seq<Session>, chargers: seq<Charger>, prices: ZonePrices, clock: int -> LocalTime)
    modifies sessions
    ensures forall i :: 0 <= i < |sessions| ==>
      sessions[i].State() == PricedState(old(sessions[i].State()), prices, SessionZone(chargers, sessions[i].chargerId), clock)
  {
    if |sessions| == 0 {
      return;
    }
    var descriptions := DescriptionMap(chargers);
    var i := 0;
    while i < |sessions|
      invariant 0 <= i <= |sessions|
      invariant forall j :: 0 <= j < |sessions| ==>
        sessions[j].State() ==
          if sessions[j] in sessions[..i]
          then PricedState(old(sessions[j].State()), prices, SessionZone(chargers, sessions[j].chargerId), clock)
          else old(sessions[j].State())
    {
      var s := sessions[i];
      var zone := ZoneFor(DescriptionOf(descriptions, s.chargerId));
      assert zone == SessionZone(chargers, s.chargerId);
      if s in sessions[..i] {
        PricedStateIdempotent(old(s.State()), prices, zone, clock);
      }
      PriceSession(s, prices, zone, clock);
      SessionSupport.InPrefixStep(sessions, i);
      i := i + 1;
    }
    assert sessions[..i] == sessions;
  }

  /** price_currency: the currency the prices are in. */
  function PriceCurrency(): (c: string)
    ensures c == Currency
  {
    Currency
  }
}
