# balanz-ui energy, pricing and status core in Dafny

This project models the computational core of the balanz-ui dashboard for EV-charger
groups. It covers four parts.

- **Session augmentation** (`SessionSupport.dfy`). A charging session carries sparse current
  samples (offered and measured amperes). The model does the following:
  - repairs an end time that is not after the start;
  - turns each sample into raw watt-hours from the "held" current over its interval;
  - rescales all samples but the last to the session's hardware energy meter;
  - spreads every sample's energy over an hour-aligned timeline in proportion to overlap;
  - moves any mismatch of more than 1 Wh against the meter into the first hour;
  - attaches the hourly history, with running totals, to the session.
- **Pricing** (`EPricing.dfy`). The model covers:
  - the Danish time-of-use tariff (night, day and evening-peak slots; summer and winter
    tables; base tariff and add-on);
  - the per-hour spot price of the charger's zone (DK1 when the charger description says
    so, DK2 otherwise);
  - pricing of every hourly entry that has energy, and the three price totals of a session.
- **Statistics report** (`SessionStatistics.dfy`). The model covers:
  - calendar buckets from the start date to the end date inclusive;
  - the group, charger and time-window filter on sessions;
  - accumulation of each hour pair into the first bucket that spans it;
  - removal of the closing bucket;
  - the total row and the per-kWh averages;
  - the effect that augments and prices the session list.
- **Charging status table** (`ChargingStatusTable.dfy`). The model covers:
  - the gauge maximum;
  - one row per charger connector, with id `charger/connector` and status `Unknown` when
    the status is null;
  - the Map from status to connector count;
  - the charging history shown for a row, with a final "now" entry carrying the latest
    non-null currents;
  - the kW and kWh columns.

`Types.dfy` holds the shared records. A session is a `Session` object whose fields the
pipeline overwrites in place. A connector's transaction is a `Transaction` object whose
history the status view appends to. Charging entries, chargers and connectors are values.

Each loop of the source is a method proved against a specification function. The properties
the source relies on are lemmas about those functions. Highlights:

- the sample intervals tile the session;
- rescaling hits the meter except for the last sample's share;
- spreading the samples over the hours neither loses nor creates energy;
- the reconciled hourly energy is within 1 Wh of the meter;
- augmenting or pricing twice changes nothing;
- every matched hour pair lands in exactly one bucket, so the report's columns sum to what
  the kept sessions carry;
- the popped bucket is always empty;
- row ids split back into their charger and connector ids;
- the status counts sum to the number of rows.

The following are parameters rather than effects:
- the current time (`now`, whole seconds);
- the local hour and month of an hour start (`clock`);
- the calendar step between report buckets (`step`);
- the downloaded spot prices (`prices`).

## Model

| member | source | states |
|---|---|---|
| Types.LatestReading | src/components/ChargingStatusTable.tsx:72-81 | the value of the latest entry whose reading is non-null, None exactly when every entry's reading is null |
| Types.FirstReading | src/common/SessionSupport.tsx:39-41 | the value of the earliest entry with a non-null reading, None exactly when there is none |
| Types.LatestReadingStep | src/components/ChargingStatusTable.tsx:72-81 | one backward step: a non-null reading at i is the latest of the prefix ending at i, a null one defers to the shorter prefix |
| SessionSupport.FloorHour | src/common/SessionSupport.tsx:58-61 | the start of the hour containing t: a multiple of 3600 within the hour before t |
| SessionSupport.RepairedEnd | src/common/SessionSupport.tsx:12-13 | an end not after the start becomes start + 1800; any other end, or a missing one, is kept; a present end is always after the start |
| SessionSupport.RepairIdempotent | src/common/SessionSupport.tsx:12-13 | repairing a repaired end changes nothing |
| SessionSupport.IntervalsTile | src/common/SessionSupport.tsx:27-36 | the sample intervals add up to the span from the first sample to the effective end |
| SessionSupport.NextHeld | src/common/SessionSupport.tsx:37-41 | a reported usage replaces the held current; an offered current is taken only while nothing is held |
| SessionSupport.HeldIsLatestUsageElseFirstOffered | src/common/SessionSupport.tsx:23-41 | the held current after n samples is the latest reported usage, else the earliest offered current |
| SessionSupport.HeldSticky | src/common/SessionSupport.tsx:37-41 | once a current is held, samples without usage leave it unchanged whatever they offer |
| SessionSupport.Interpolate | src/common/SessionSupport.tsx:22-44 | each sample gets the held current times its interval in hours as its Wh, and the loop's total is the sum of those |
| SessionSupport.Rescaled | src/common/SessionSupport.tsx:46-53 | a zero raw total leaves the energies alone; otherwise all but the last sample are multiplied by meter / total and the last keeps its raw value |
| SessionSupport.RescaledTotal | src/common/SessionSupport.tsx:46-53 | after rescaling, the samples sum to meter + last - last * factor, so exactly to the meter when the last sample has no raw energy |
| SessionSupport.RescaleSamples | src/common/SessionSupport.tsx:46-53 | the rescaling loop writes exactly the rescaled energies into the history |
| SessionSupport.WithWhWhs | src/common/SessionSupport.tsx:42-53 | writing energies and reading them back are inverse, and a second write overrides the first |
| SessionSupport.Timeline | src/common/SessionSupport.tsx:57-73 | hour starts 3600 s apart from the start's hour to the hour after the end, at least two for a session with start <= end |
| SessionSupport.BuildHours | src/common/SessionSupport.tsx:57-73 | the loop builds one empty hourly entry per timeline hour |
| SessionSupport.Share | src/common/SessionSupport.tsx:96-102 | no overlap gives 0 |
| SessionSupport.ShareProportional | src/common/SessionSupport.tsx:96-102 | a positive overlap lies in a sample of positive length, and share * length == energy * overlap |
| SessionSupport.ZeroLengthSampleIdle | src/common/SessionSupport.tsx:85 | a sample of zero length hands nothing to any hour |
| SessionSupport.CoveredByHull | src/common/SessionSupport.tsx:88-98 | over strictly increasing hour starts, the overlaps of a sample with the consecutive hours add up to its overlap with the whole span |
| SessionSupport.SampleConserves | src/common/SessionSupport.tsx:87-109 | a sample of positive length inside the hour span hands out exactly its energy over the hours |
| SessionSupport.DistributionConserves | src/common/SessionSupport.tsx:75-112 | with sorted samples inside the span and no energy on zero-length samples, the hourly energies sum to the samples' energies |
| SessionSupport.HoursHoldAugmentedEnergy | src/common/SessionSupport.tsx:22-112 | the distributed hourly energies of the augmented samples sum to the rescaled sample energies: distribution neither creates nor loses energy |
| SessionSupport.HoursHoldRescaledEnergy | src/common/SessionSupport.tsx:46-112 | after interpolation, rescaling and distribution the hours hold meter + last - last * factor (0 for zero raw energy), so the meter exactly when the last sample had no raw energy |
| SessionSupport.ClosingEntryGetsNothing | src/common/SessionSupport.tsx:88-92 | the last hourly entry never receives distributed energy |
| SessionSupport.DistributeSamples | src/common/SessionSupport.tsx:75-112 | each hourly entry receives the sum of the overlap shares of all samples of non-zero length |
| SessionSupport.DistributeSample | src/common/SessionSupport.tsx:87-109 | one sample adds its overlap share to every hour pair and nothing to the closing entry |
| SessionSupport.Reconciled | src/common/SessionSupport.tsx:114-122 | the hourly total ends within 1 Wh of the meter; a larger mismatch is added whole to the first hour and the others stay; a small one changes nothing |
| SessionSupport.ReconcileHours | src/common/SessionSupport.tsx:114-122 | the check loop and correction produce exactly the reconciled energies |
| SessionSupport.RunningTotalsStep | src/common/SessionSupport.tsx:124-129 | each running total is the previous one plus its own hour's energy |
| SessionSupport.RunningTotalsLast | src/common/SessionSupport.tsx:124-129 | the last running total is the sum of all hourly energies |
| SessionSupport.AddRunningTotals | src/common/SessionSupport.tsx:124-129 | the loop stores the prefix sum of the energies (in Wh) in each entry's kwh_total |
| SessionSupport.HourlyHistory | src/common/SessionSupport.tsx:55-135 | one hourly entry per timeline hour; called only when the first hour exists or the meter needs no correction |
| SessionSupport.CannotAugmentMeansMissingFirstHour | src/common/SessionSupport.tsx:114-122 | outside the augmentation's precondition the hour list is empty and the meter differs from its zero total by more than 1 Wh, so the source would correct a missing first entry |
| SessionSupport.HourlyHistoryMeter | src/common/SessionSupport.tsx:55-135 | for every input the augmentation accepts, hour k starts k hours after the start's hour, the energies total the meter within 1 Wh, and the running totals are prefix sums |
| SessionSupport.HourlyHistoryShape | src/common/SessionSupport.tsx:55-135 | when the end is not before the start, the hourly history has at least two entries with contiguous hour starts from the start's hour to the hour after the end, and the facts of HourlyHistoryMeter |
| SessionSupport.HourlyHistoryFields | src/common/SessionSupport.tsx:124-135 | entry k of the hourly history is timeline hour k with reconciled energy k and the running total up to k |
| SessionSupport.RawWhsIgnoreWh | src/common/SessionSupport.tsx:25-44 | the interpolation reads only timestamps and currents, never earlier wh values |
| SessionSupport.AugmentedState | src/common/SessionSupport.tsx:4-136 | the end time is repaired, the samples keep everything but their energy, an hourly history is attached, and no other field changes |
| SessionSupport.AugmentIdempotent | src/common/SessionSupport.tsx:4-136 | augmenting an augmented session changes nothing |
| SessionSupport.AttachHourlyHistory | src/common/SessionSupport.tsx:131-135 | the session's hourly history becomes exactly the hour entries, and no other field changes |
| SessionSupport.SampleEnergies | src/common/SessionSupport.tsx:22-53 | the interpolation and rescaling loops together leave the samples with exactly the augmented energies |
| SessionSupport.HourEntriesOf | src/common/SessionSupport.tsx:57-129 | the hour loops together build exactly the hourly history of the augmented samples |
| SessionSupport.AugmentEnergies | src/common/SessionSupport.tsx:22-135 | after the end-time repair, the session's charging history and hourly history become the augmented ones and nothing else changes |
| SessionSupport.AugmentSession | src/common/SessionSupport.tsx:4-136 | the session's new end time, charging history and hourly history are those of the augmentation at time now; prices are untouched |
| SessionSupport.AugmentSessionData | src/common/SessionSupport.tsx:138-142 | every session of the list ends augmented, a session listed twice included |
| EPricing.TimeSlot | src/common/EPricing.tsx:29-35 | slot 0 exactly for hours 0-5, slot 2 exactly for 17-20, slot 1 otherwise |
| EPricing.Tariff | src/common/EPricing.tsx:23-41 | the tariff lies between 1.0026 and 1.7838 per kWh |
| EPricing.TariffValues | src/common/EPricing.tsx:23-41 | the six tariff values; the winter evening peak is the only 1.7838 hour; summer is never dearer than winter |
| EPricing.TotalKwhPrice | src/common/EPricing.tsx:43-56 | (spot, tariff) for an hour with a price in the zone, (0, 0) when the zone or the hour is missing |
| EPricing.MissingPriceZeroesTariff | src/common/EPricing.tsx:47-55 | the tariff part is zero exactly when the spot price is missing |
| EPricing.Includes | src/common/EPricing.tsx:137 | a match needs the substring to fit, and a prefix match is found |
| EPricing.IncludesIffOccurs | src/common/EPricing.tsx:137 | the substring scan succeeds exactly when the substring occurs at some index |
| EPricing.ZoneFor | src/common/EPricing.tsx:135-137 | the zone is DK1 or the DK2 default |
| EPricing.ZoneIffDK1 | src/common/EPricing.tsx:135-137 | DK1 exactly when the description contains "DK1"; an unknown charger's empty description gives DK2 |
| EPricing.LastDescription | src/common/EPricing.tsx:128-131 | the description of the last charger with the id, None exactly when no charger has it |
| EPricing.DescriptionMap | src/common/EPricing.tsx:128-131 | the map holds exactly the ids of the chargers, each with the description of its last charger |
| EPricing.PricedEntry | src/common/EPricing.tsx:146-153 | an entry without energy is unchanged; a priced entry keeps time, energy and currents and its price is spot plus tariff |
| EPricing.PricedEntryPrices | src/common/EPricing.tsx:148-153 | spot and tariff prices are the unit prices times the kWh; a missing spot price leaves all three prices zero |
| EPricing.PricedEntryIdempotent | src/common/EPricing.tsx:146-153 | pricing an entry twice is pricing it once |
| EPricing.PriceEntry | src/common/EPricing.tsx:148-153 | the loop body computes the priced entry |
| EPricing.PriceHours | src/common/EPricing.tsx:139-157 | the loop prices every entry with energy and its totals are the sums over those entries |
| EPricing.TotalIsSpotPlusTariff | src/common/EPricing.tsx:151-156 | a session's total price is its spot total plus its tariff total |
| EPricing.PricedState | src/common/EPricing.tsx:143-160 | pricing keeps end time and samples, and leaves a session without hourly history untouched |
| EPricing.PricedStateIdempotent | src/common/EPricing.tsx:139-160 | pricing a session twice is pricing it once |
| EPricing.PriceSession | src/common/EPricing.tsx:139-160 | the session's hourly history and three totals become the priced ones |
| EPricing.SessionZone | src/common/EPricing.tsx:133-137 | DK1 exactly when the last charger with the session's charger id has "DK1" in its description; DK2 otherwise, an unknown charger included |
| EPricing.PriceSessionData | src/common/EPricing.tsx:121-162 | every session is priced in the zone of its charger's (last) description; an empty list is untouched |
| EPricing.PriceCurrency | src/common/EPricing.tsx:164-166 | the currency is DKK |
| SessionStatistics.BucketDatesShape | src/components/SessionStatistics.tsx:266-323 | bucket dates start at the start date, stay within [start, end], increase strictly by calendar steps, and stop at the last date not after the end |
| SessionStatistics.BuildBuckets | src/components/SessionStatistics.tsx:266-323 | the loop builds one empty bucket per bucket date |
| SessionStatistics.KeptIffMeetsWindow | src/components/SessionStatistics.tsx:329-339 | for a session that ends after it starts, in the selected group and charger, and a non-empty window, the filter keeps it exactly when some instant lies in both window and session |
| SessionStatistics.Accumulate | src/components/SessionStatistics.tsx:326-369 | accumulation keeps the number of buckets and their dates |
| SessionStatistics.ExcludedSessionIgnored | src/components/SessionStatistics.tsx:329-339 | a session outside the group, charger or window adds nothing |
| SessionStatistics.FirstBucketFrom | src/components/SessionStatistics.tsx:347-365 | the bucket found spans the pair and no earlier bucket does; None when none does |
| SessionStatistics.OnlyContainingBucket | src/components/SessionStatistics.tsx:347-365 | with increasing dates, a pair of positive length fits at most one bucket |
| SessionStatistics.AddEntry | src/components/SessionStatistics.tsx:354-364 | the bucket gains wh / 1000 kWh and the entry's three prices and keeps its date |
| SessionStatistics.AddPair | src/components/SessionStatistics.tsx:342-366 | only the first spanning bucket changes, never the last; a pair spanned by no bucket changes nothing |
| SessionStatistics.LastBucketUntouched | src/components/SessionStatistics.tsx:342-371 | accumulation never changes the last bucket |
| SessionStatistics.ClosingEntryIgnored | src/components/SessionStatistics.tsx:342-345 | the closing hourly entry's energy and prices never reach a bucket |
| SessionStatistics.Pop | src/components/SessionStatistics.tsx:371 | exactly the last bucket is removed |
| SessionStatistics.Dataset | src/components/SessionStatistics.tsx:261-374 | empty when the end is before the start; otherwise one row per bucket date but the last |
| SessionStatistics.DatasetShape | src/components/SessionStatistics.tsx:261-374 | one row per bucket date but the last, in increasing time order; the removed bucket was still empty |
| SessionStatistics.AccumulateTotal | src/components/SessionStatistics.tsx:326-369 | each column gains exactly what the matched hour pairs of the kept sessions carry |
| SessionStatistics.DatasetTotal | src/components/SessionStatistics.tsx:326-374 | each report column sums to what the matched hour pairs of the kept sessions carry |
| SessionStatistics.BuildDataset | src/components/SessionStatistics.tsx:253-374 | the effect's dataset is the popped accumulation over the kept sessions |
| SessionStatistics.AddSessionTo | src/components/SessionStatistics.tsx:342-366 | the pair loop adds every hour pair of a session |
| SessionStatistics.AddPairTo | src/components/SessionStatistics.tsx:347-365 | the bucket loop adds the pair to the first spanning bucket and stops |
| SessionStatistics.TotalRow | src/components/SessionStatistics.tsx:213-239 | each field of the total row is the sum of that column over the dataset, with timestamp 0 |
| SessionStatistics.AveragePerKwh | src/components/SessionStatistics.tsx:130-179 | 0 for a row without energy, else the value whose product with the energy is the column |
| SessionStatistics.ProcessedIdempotent | src/components/SessionStatistics.tsx:241-250 | a second augmentation and pricing pass at the same time changes nothing |
| SessionStatistics.AugmentAndPrice | src/components/SessionStatistics.tsx:241-250 | every session ends augmented and then priced in its charger's zone |
| ChargingStatusTable.GetMaxAllocation | src/components/ChargingStatusTable.tsx:46-51 | the result is at least 0 and every allocation, and is 0 or one of them |
| ChargingStatusTable.Split | src/components/ChargingStatusTable.tsx:54 | at least one part, none containing a slash |
| ChargingStatusTable.JoinSplit | src/components/ChargingStatusTable.tsx:54 | joining the parts with slashes gives back the id |
| ChargingStatusTable.RowIdRoundTrip | src/components/ChargingStatusTable.tsx:101 | a row id splits back into its charger and connector ids when neither contains a slash |
| ChargingStatusTable.RowOf | src/components/ChargingStatusTable.tsx:98-116 | the row's id is charger/connector; alias, priority, offered current and network state are copied; a null status becomes Unknown; without a transaction id tag, user name, usage meter and energy meter are null and the start time is absent (the source's empty string); with one, id tag, start time, user name and energy meter are present and copied, and the usage meter is copied as it is, null included |
| ChargingStatusTable.RowsAreConnectors | src/components/ChargingStatusTable.tsx:95-119 | the rows are exactly the connectors' rows, one per (charger, connector) |
| ChargingStatusTable.FlattenConnectors | src/components/ChargingStatusTable.tsx:95-119 | the loops produce the rows charger by charger, connector by connector |
| ChargingStatusTable.GetSet | src/components/ChargingStatusTable.tsx:124-126 | after Map.set the key reads the new value and every other key reads as before |
| ChargingStatusTable.TallyCounts | src/components/ChargingStatusTable.tsx:122-129 | each status maps to its number of rows; a status no row has is absent |
| ChargingStatusTable.Tally | src/components/ChargingStatusTable.tsx:122-129 | every status appears once in the map, and only statuses of rows appear |
| ChargingStatusTable.CountOfPositive | src/components/ChargingStatusTable.tsx:122-129 | a status has a positive count exactly when it occurs among the rows |
| ChargingStatusTable.TallyKeys | src/components/ChargingStatusTable.tsx:122-129 | the map's keys are exactly the statuses that occur among the rows |
| ChargingStatusTable.GetFinds | src/components/ChargingStatusTable.tsx:124 | Map.get finds a key exactly when some entry has it, with that entry's value |
| ChargingStatusTable.TallySum | src/components/ChargingStatusTable.tsx:122-129 | the counts add up to the number of rows |
| ChargingStatusTable.CountStatuses | src/components/ChargingStatusTable.tsx:122-129 | the loop builds the tally of the rows' statuses |
| ChargingStatusTable.FindCharger | src/components/ChargingStatusTable.tsx:55 | the charger at the first index that has the id (Array.find), None exactly when none has it |
| ChargingStatusTable.FindChargerFirst | src/components/ChargingStatusTable.tsx:55 | the charger at the first index with the id is the one found, whatever later chargers share the id |
| ChargingStatusTable.ConnectorAt | src/components/ChargingStatusTable.tsx:58-59 | the connector under the key, None exactly when no entry has it |
| ChargingStatusTable.ConnectorAtFirst | src/components/ChargingStatusTable.tsx:58-59 | the connector at the first position with the key is the one found |
| ChargingStatusTable.FindTransaction | src/components/ChargingStatusTable.tsx:53-65 | None when no charger has the id's first part; a found transaction is that of a connector, under the id's second part ("undefined" if missing), of a charger with the first part |
| ChargingStatusTable.FindTransactionFirst | src/components/ChargingStatusTable.tsx:53-65 | for the first charger with the id's first part: without a connector under the key nothing is found, and otherwise the transaction found is that of its first connector under the key, a present one included |
| ChargingStatusTable.RowFindsItsTransaction | src/components/ChargingStatusTable.tsx:53-65 | with unique charger ids and keys and no slashes, a row's id leads to its own connector's transaction |
| ChargingStatusTable.NowEntry | src/components/ChargingStatusTable.tsx:71-85 | the now entry is at now, without energy or running total, and carries the latest non-null offered and used currents |
| ChargingStatusTable.WithNowEntry | src/components/ChargingStatusTable.tsx:71-86 | an empty history stays empty; otherwise the history gains the now entry at its end |
| ChargingStatusTable.WithNowEntryShape | src/components/ChargingStatusTable.tsx:71-86 | a non-empty history keeps its entries and gains one at now with no energy, carrying the latest non-null currents or null |
| ChargingStatusTable.LastReading | src/components/ChargingStatusTable.tsx:72-81 | the backward scan returns the latest non-null reading |
| ChargingStatusTable.GetHistoryData | src/components/ChargingStatusTable.tsx:53-88 | [] without charger, connector or transaction; otherwise the transaction's own history, extended by the now entry unless empty; no other transaction changes |
| ChargingStatusTable.UsageKw | src/components/ChargingStatusTable.tsx:156 | null stays null; otherwise kW * 1000 == 3 * 230 * A |
| ChargingStatusTable.EnergyKwh | src/components/ChargingStatusTable.tsx:158 | kWh * 1000 == the meter in Wh; a null meter gives 0 |

## Left out

- Floating point: energies and prices are exact reals. `toFixed` rounding in the columns and the floating-point sums are not modelled.
- Calendars and time zones: dayjs' local hour and month and its day, hour, month and year steps are the `clock` and `step` parameters. Period selection (SessionStatistics.tsx:186-210) and the end date of each period are not modelled; the end date is a parameter.
- The clock: `Date.now()` and `dayjs()` are one whole-second `now` parameter, although the source's interpolation uses fractional seconds (SessionSupport.tsx:31).
- download_prices and the network: the spot prices are the `prices` parameter. The download is asynchronous, so the source may price before the prices arrive; the model prices with whatever `prices` holds.
- Console logging, including the `remain` diagnostic of the distribution loop (SessionSupport.tsx:87-111), which changes no state.
- The `date` field of charging entries and its Date objects are not modelled; pricing reads the hour from the timestamp instead.
- Null `wh`, `price` and `tariff_price` fields (the `?? 0` fallbacks): entries always carry numbers, which the source's own writers guarantee for the fields it reads.
- The report rows' display labels (`id`, `x`) and the table column value getters that only format, such as the 'None' to 'Unknown' display mapping (ChargingStatusTable.tsx:142).
- React state, memo guards such as `sessionAugmented`, and rendering. The effect of SessionStatistics.tsx:241-250 is the AugmentAndPrice method.
- CRUD components, format_time and the remaining views are not part of this model. The start time of a status row is kept as a timestamp instead of the formatted string, and its None stands for the empty string the source writes when a connector has no transaction.
- SessionSupport.AugmentSession: requires CanAugment: a session has an end time, or the hour of its start is at most one hour after the hour of `now`, or its meter is within 1 Wh of 0. Otherwise the source's hour list is empty and it writes the meter correction to a missing first entry (CannotAugmentMeansMissingFirstHour).
- SessionSupport.AugmentSessionData: requires CanAugment for every session of the list, for the same reason.
- SessionStatistics.AugmentAndPrice: requires CanAugment for every session of the list, for the same reason.
- ChargingStatusTable.GetMaxAllocation: each allocation entry is a pair whose second component is read; a missing component (NaN in JavaScript) is not modelled.
- ChargingStatusTable.GetHistoryData: the "now" entry has price fields 0 and no kwh_total where the source leaves them undefined.
