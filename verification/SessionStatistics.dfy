/** The statistics report (src/components/SessionStatistics.tsx): augmented and priced
    sessions are filtered, their hourly energy is dropped into calendar buckets, and a total
    row and per-kWh averages are derived from the buckets. */
module SessionStatistics {
  import opened Types
  import SessionSupport
  import EPricing

  /** The filter value that selects every group or every charger. */
  const All: string := "(all)"

  /** A DATAENTRY row of the report; its display labels (`id`, `x`) are not modelled. */
  datatype DataEntry = DataEntry(timestamp: int, energy: real, tariffPrice: real, spotPrice: real, price: real)

  /** The four summed columns of a row. */
  datatype Field = Energy | TariffPrice | SpotPrice | Price

  function FieldOf(d: DataEntry, f: Field): real {
    match f
    case Energy => d.energy
    case TariffPrice => d.tariffPrice
    case SpotPrice => d.spotPrice
    case Price => d.price
  }

  /** What one hourly entry adds to a column: its energy in kWh, or one of its prices. */
  function Contribution(e: ChargingEntry, f: Field): real {
    match f
    case Energy => e.wh / 1000.0
    case TariffPrice => e.tariffPrice
    case SpotPrice => e.spotPrice
    case Price => e.price
  }

  /** The sum of column `f` over a list of rows. */
  function SumField(rows: seq<DataEntry>, f: Field): real {
    if rows == [] then 0.0 else SumField(rows[..|rows| - 1], f) + FieldOf(rows[|rows| - 1], f)
  }

  // ---------------------------------------------------------------------------------------
  // Bucket generation
  // ---------------------------------------------------------------------------------------

  /** The bucket dates from `date` while not after `end`, each the calendar step of the one
      before. */
  function BucketDates(date: int, end: int, step: int -> int): seq<int>
    requires forall t :: t < step(t)
    decreases end - date
  {
    if date > end then [] else [date] + BucketDates(step(date), end, step)
  }

  /** The dates start at `date`, stay within [date, end], increase strictly by calendar
      steps, and stop at the last date not after `end`. */
  lemma {:induction false} BucketDatesShape(date: int, end: int, step: int -> int)
    requires forall t :: t < step(t)
    ensures var ds := BucketDates(date, end, step);
      && (date <= end <==> 0 < |ds|)
      && (0 < |ds| ==> ds[0] == date && end < step(ds[|ds| - 1]))
      && (forall k :: 0 <= k < |ds| ==> date <= ds[k] <= end)
      && (forall k :: 0 < k < |ds| ==> ds[k] == step(ds[k - 1]))
      && (forall j, k :: 0 <= j < k < |ds| ==> ds[j] < ds[k])
    decreases end - date
  {
    if date <= end {
      BucketDatesShape(step(date), end, step);
      var ds := BucketDates(date, end, step);
      var rest := BucketDates(step(date), end, step);
      assert ds == [date] + rest;
      assert forall k :: 0 < k < |ds| ==> ds[k] == rest[k - 1];
    }
  }

  function EmptyBucket(t: int): DataEntry {
    DataEntry(t, 0.0, 0.0, 0.0, 0.0)
  }

  function EmptyBuckets(ds: seq<int>): (b: seq<DataEntry>)
    ensures |b| == |ds|
    ensures forall k :: 0 <= k < |ds| ==> b[k] == EmptyBucket(ds[k])
  {
    seq(|ds|, k requires 0 <= k < |ds| => EmptyBucket(ds[k]))
  }

  function Stamps(b: seq<DataEntry>): (ts: seq<int>)
    ensures |ts| == |b|
    ensures forall k :: 0 <= k < |b| ==> ts[k] == b[k].timestamp
  {
    seq(|b|, k requires 0 <= k < |b| => b[k].timestamp)
  }

  /** The generation loop: one empty bucket per date from `start` up to `end` inclusive. */
  method BuildBuckets(start: int, end: int, step: int -> int) returns (result: seq<DataEntry>)
    requires forall t :: t < step(t)
    ensures result == EmptyBuckets(BucketDates(start, end, step))
  {
    ghost var ds := BucketDates(start, end, step);
    ghost var done: seq<int> := [];
    result := [];
    var date := start;
    while date <= end
      invariant ds == done + BucketDates(date, end, step)
      invariant result == EmptyBuckets(done)
      decreases end - date
    {
      ghost var rest := BucketDates(step(date), end, step);
      assert ds == (done + [date]) + rest by {
        BucketDatesUnfold(date, end, step);
      }
      assert result + [EmptyBucket(date)] == EmptyBuckets(done + [date]) by {
        EmptyBucketsSnoc(done, date);
      }
      done := done + [date];
      result := result + [EmptyBucket(date)];
      date := step(date);
    }
    assert ds == done by {
      assert BucketDates(date, end, step) == [];
    }
  }

  lemma EmptyBucketsSnoc(ds: seq<int>, d: int)
    ensures EmptyBuckets(ds + [d]) == EmptyBuckets(ds) + [EmptyBucket(d)]
  {
  }

  lemma BucketDatesUnfold(date: int, end: int, step: int -> int)
    requires forall t :: t < step(t)
    requires date <= end
    ensures BucketDates(date, end, step) == [date] + BucketDates(step(date), end, step)
  {
  }

  // ---------------------------------------------------------------------------------------
  // Session filter
  // ---------------------------------------------------------------------------------------

  /** What the report reads of a session. */
  datatype SessionRecord = SessionRecord(
    groupId: string, chargerId: string, startTime: int, endTime: Option<int>, hourly: seq<ChargingEntry>)

  function RecordOf(s: Session): SessionRecord
    requires s.hourlyHistory.Some?
    reads s
  {
    SessionRecord(s.groupId, s.chargerId, s.startTime, s.endTime, s.hourlyHistory.value)
  }

  function Records(sessions: seq<Session>): (rs: seq<SessionRecord>)
    requires forall i :: 0 <= i < |sessions| ==> sessions[i].hourlyHistory.Some?
    reads sessions
    ensures |rs| == |sessions|
    ensures forall i :: 0 <= i < |sessions| ==> rs[i] == RecordOf(sessions[i])
  {
    seq(|sessions|, i reads sessions requires 0 <= i < |sessions| && sessions[i].hourlyHistory.Some? =>
      RecordOf(sessions[i]))
  }

  /** The group and charger selections of the report. */
  datatype Selection = Selection(group: string, charger: string)

  /** A session enters the report when it matches the selected group and charger and its
      span [start, end] is not wholly outside the window [windowStart, windowEnd]. */
  predicate Kept(r: SessionRecord, sel: Selection, windowStart: int, windowEnd: int) {
    && (sel.group == All || sel.group == r.groupId)
    && (sel.charger == All || sel.charger == r.chargerId)
    && !(r.endTime.Some? && r.endTime.value < windowStart)
    && !(r.startTime > windowEnd)
  }

  /** Instant `t` lies within the session; an in-progress session has no end. */
  predicate During(r: SessionRecord, t: int) {
    r.startTime <= t && (r.endTime.None? || t <= r.endTime.value)
  }

  /** For a session that does not end before it starts and a non-empty window, the time test
      keeps the session exactly when some instant lies both in the window and in the session
      (an in-progress session lasting forever). */
  lemma KeptIffMeetsWindow(r: SessionRecord, sel: Selection, windowStart: int, windowEnd: int)
    requires windowStart <= windowEnd
    requires r.endTime.Some? ==> r.startTime <= r.endTime.value
    requires (sel.group == All || sel.group == r.groupId) && (sel.charger == All || sel.charger == r.chargerId)
    ensures Kept(r, sel, windowStart, windowEnd) <==>
      exists t :: windowStart <= t <= windowEnd && During(r, t)
  {
    if Kept(r, sel, windowStart, windowEnd) {
      var t := if r.startTime < windowStart then windowStart else r.startTime;
      assert windowStart <= t <= windowEnd && During(r, t);
    }
  }

  // ---------------------------------------------------------------------------------------
  // Accumulation into buckets
  // ---------------------------------------------------------------------------------------

  /** Bucket `k` spans the hour pair [start, end]. */
  predicate Contains(stamps: seq<int>, k: int, start: int, end: int)
    requires 0 <= k < |stamps| - 1
  {
    stamps[k] <= start && end <= stamps[k + 1]
  }

  /** The first bucket from index `j` on that spans [start, end], if any. */
  function FirstBucketFrom(stamps: seq<int>, start: int, end: int, j: nat): (k: Option<nat>)
    ensures k.Some? ==> j <= k.value < |stamps| - 1 && Contains(stamps, k.value, start, end)
    ensures k.Some? ==> forall i :: j <= i < k.value ==> !Contains(stamps, i, start, end)
    ensures k.None? ==> forall i :: j <= i < |stamps| - 1 ==> !Contains(stamps, i, start, end)
    decreases |stamps| - j
  {
    if |stamps| <= j + 1 then None
    else if Contains(stamps, j, start, end) then Some(j)
    else FirstBucketFrom(stamps, start, end, j + 1)
  }

  function FirstBucket(stamps: seq<int>, start: int, end: int): Option<nat> {
    FirstBucketFrom(stamps, start, end, 0)
  }

  /** With strictly increasing bucket dates, a pair of positive length fits in at most one
      bucket, so the first containing bucket is the only one. */
  lemma OnlyContainingBucket(stamps: seq<int>, start: int, end: int, k: nat)
    requires forall i, j :: 0 <= i < j < |stamps| ==> stamps[i] < stamps[j]
    requires start < end
    requires k < |stamps| - 1 && Contains(stamps, k, start, end)
    ensures FirstBucket(stamps, start, end) == Some(k)
  {
  }

  /** A bucket after the hourly entry `e` is added to it. */
  function AddEntry(b: DataEntry, e: ChargingEntry): (r: DataEntry)
    ensures r.timestamp == b.timestamp
    ensures forall f :: FieldOf(r, f) == FieldOf(b, f) + Contribution(e, f)
  {
    b.(energy := b.energy + e.wh / 1000.0, price := b.price + e.price,
       tariffPrice := b.tariffPrice + e.tariffPrice, spotPrice := b.spotPrice + e.spotPrice)
  }

  /** The hour pair [start, end] with entry `e` goes to the first bucket that spans it; no
      other bucket changes, and a pair no bucket spans changes nothing. */
  function AddPair(buckets: seq<DataEntry>, start: int, end: int, e: ChargingEntry): (r: seq<DataEntry>)
    ensures |r| == |buckets| && Stamps(r) == Stamps(buckets)
    ensures FirstBucket(Stamps(buckets), start, end).None? ==> r == buckets
    ensures FirstBucket(Stamps(buckets), start, end).Some? ==>
      var k := FirstBucket(Stamps(buckets), start, end).value;
      && k < |buckets| - 1
      && r[k] == AddEntry(buckets[k], e)
      && forall j :: 0 <= j < |buckets| && j != k ==> r[j] == buckets[j]
  {
    match FirstBucket(Stamps(buckets), start, end)
    case None => buckets
    case Some(k) =>
      var r := buckets[k := AddEntry(buckets[k], e)];
      assert Stamps(r) == Stamps(buckets);
      r
  }

  /** The buckets after the first `n` hour pairs of `hh`. */
  function AddPairs(buckets: seq<DataEntry>, hh: seq<ChargingEntry>, n: nat): (r: seq<DataEntry>)
    requires n < |hh|
    ensures |r| == |buckets| && Stamps(r) == Stamps(buckets)
  {
    if n == 0 then buckets
    else AddPair(AddPairs(buckets, hh, n - 1), hh[n - 1].timestamp, hh[n].timestamp, hh[n - 1])
  }

  /** Every hour pair of a session; the closing entry starts no pair. */
  function AddSession(buckets: seq<DataEntry>, hh: seq<ChargingEntry>): (r: seq<DataEntry>)
    ensures |r| == |buckets| && Stamps(r) == Stamps(buckets)
  {
    if |hh| == 0 then buckets else AddPairs(buckets, hh, |hh| - 1)
  }

  /** The buckets after every kept session of `recs`. */
  function Accumulate(buckets: seq<DataEntry>, recs: seq<SessionRecord>, sel: Selection, ws: int, we: int): (r: seq<DataEntry>)
    ensures |r| == |buckets| && Stamps(r) == Stamps(buckets)
  {
    if recs == [] then buckets
    else
      var b := Accumulate(buckets, recs[..|recs| - 1], sel, ws, we);
      var last := recs[|recs| - 1];
      if Kept(last, sel, ws, we) then AddSession(b, last.hourly) else b
  }

  /** The last bucket only closes the one before it: nothing is ever added to it. */
  lemma {:induction false} LastBucketUntouched(buckets: seq<DataEntry>, recs: seq<SessionRecord>, sel: Selection, ws: int, we: int)
    requires 0 < |buckets|
    ensures Accumulate(buckets, recs, sel, ws, we)[|buckets| - 1] == buckets[|buckets| - 1]
  {
    if recs != [] {
      LastBucketUntouched(buckets, recs[..|recs| - 1], sel, ws, we);
      var b := Accumulate(buckets, recs[..|recs| - 1], sel, ws, we);
      var hh := recs[|recs| - 1].hourly;
      if |hh| > 0 {
        PairsLeaveLastBucket(b, hh, |hh| - 1);
      }
    }
  }

  lemma {:induction false} PairsLeaveLastBucket(buckets: seq<DataEntry>, hh: seq<ChargingEntry>, n: nat)
    requires 0 < |buckets| && n < |hh|
    ensures AddPairs(buckets, hh, n)[|buckets| - 1] == buckets[|buckets| - 1]
  {
    if n > 0 {
      PairsLeaveLastBucket(buckets, hh, n - 1);
    }
  }

  /** Only the timestamps of the first `n + 1` entries and the values of the first `n`
      matter to the first `n` pairs. */
  lemma {:induction false} AddPairsDependsOnPrefix(buckets: seq<DataEntry>, hh: seq<ChargingEntry>, hh2: seq<ChargingEntry>, n: nat)
    requires n < |hh| && n < |hh2|
    requires forall i :: 0 <= i < n ==> hh[i] == hh2[i]
    requires hh[n].timestamp == hh2[n].timestamp
    ensures AddPairs(buckets, hh, n) == AddPairs(buckets, hh2, n)
  {
    if n > 0 {
      AddPairsDependsOnPrefix(buckets, hh, hh2, n - 1);
    }
  }

  /** The closing hourly entry only ends the last pair: its energy and prices are never
      added to any bucket. */
  lemma ClosingEntryIgnored(buckets: seq<DataEntry>, hh: seq<ChargingEntry>, e: ChargingEntry)
    requires 0 < |hh| && e.timestamp == hh[|hh| - 1].timestamp
    ensures AddSession(buckets, hh[|hh| - 1 := e]) == AddSession(buckets, hh)
  {
    AddPairsDependsOnPrefix(buckets, hh, hh[|hh| - 1 := e], |hh| - 1);
  }

  /** Removing the last bucket (result.pop()). */
  function Pop(b: seq<DataEntry>): (r: seq<DataEntry>)
    ensures 0 < |b| ==> |r| == |b| - 1 && r + [b[|b| - 1]] == b
    ensures b == [] ==> r == []
  {
    if 0 < |b| then b[..|b| - 1] else b
  }

  /** The report dataset for the window [start, end] of sessions `recs`. */
  function Dataset(recs: seq<SessionRecord>, sel: Selection, start: int, end: int, step: int -> int): (d: seq<DataEntry>)
    requires forall t :: t < step(t)
    ensures end < start ==> d == []
    ensures start <= end ==> |d| == |BucketDates(start, end, step)| - 1
  {
    Pop(Accumulate(EmptyBuckets(BucketDates(start, end, step)), recs, sel, start, end))
  }

  /** The dataset has one row per generated date but the last, in increasing time order, and
      the popped bucket was still empty, so the pop loses no energy and no price. */
  lemma DatasetShape(recs: seq<SessionRecord>, sel: Selection, start: int, end: int, step: int -> int)
    requires forall t :: t < step(t)
    requires start <= end
    ensures var ds := BucketDates(start, end, step);
      var d := Dataset(recs, sel, start, end, step);
      && |d| == |ds| - 1
      && (forall k :: 0 <= k < |d| ==> d[k].timestamp == ds[k])
      && (forall j, k :: 0 <= j < k < |d| ==> d[j].timestamp < d[k].timestamp)
      && d + [EmptyBucket(ds[|ds| - 1])] == Accumulate(EmptyBuckets(ds), recs, sel, start, end)
  {
    var ds := BucketDates(start, end, step);
    BucketDatesShape(start, end, step);
    var b := EmptyBuckets(ds);
    var acc := Accumulate(b, recs, sel, start, end);
    LastBucketUntouched(b, recs, sel, start, end);
    assert Stamps(acc) == Stamps(b);
    forall k | 0 <= k < |acc|
      ensures acc[k].timestamp == ds[k]
    {
      assert Stamps(acc)[k] == Stamps(b)[k];
    }
  }

  // ---------------------------------------------------------------------------------------
  // Conservation: every matched hour pair is counted exactly once
  // ---------------------------------------------------------------------------------------

  /** What the first `n` pairs of `hh` add to column `f`, counting only pairs some bucket
      spans. */
  function PairsTotal(stamps: seq<int>, hh: seq<ChargingEntry>, n: nat, f: Field): real
    requires n < |hh|
  {
    if n == 0 then 0.0
    else
      var matched := FirstBucket(stamps, hh[n - 1].timestamp, hh[n].timestamp).Some?;
      PairsTotal(stamps, hh, n - 1, f) + (if matched then Contribution(hh[n - 1], f) else 0.0)
  }

  function SessionTotal(stamps: seq<int>, hh: seq<ChargingEntry>, f: Field): real {
    if |hh| == 0 then 0.0 else PairsTotal(stamps, hh, |hh| - 1, f)
  }

  /** What the kept sessions of `recs` add to column `f`. */
  function ReportTotal(stamps: seq<int>, recs: seq<SessionRecord>, sel: Selection, ws: int, we: int, f: Field): real {
    if recs == [] then 0.0
    else
      var last := recs[|recs| - 1];
      ReportTotal(stamps, recs[..|recs| - 1], sel, ws, we, f) +
        (if Kept(last, sel, ws, we) then SessionTotal(stamps, last.hourly, f) else 0.0)
  }

  lemma {:induction false} SumFieldUpdate(rows: seq<DataEntry>, k: nat, v: DataEntry, f: Field)
    requires k < |rows|
    ensures SumField(rows[k := v], f) == SumField(rows, f) - FieldOf(rows[k], f) + FieldOf(v, f)
  {
    var n := |rows|;
    if k < n - 1 {
      assert rows[k := v][..n - 1] == rows[..n - 1][k := v];
      SumFieldUpdate(rows[..n - 1], k, v, f);
    } else {
      assert rows[k := v][..n - 1] == rows[..n - 1];
    }
  }

  lemma AddPairTotal(buckets: seq<DataEntry>, start: int, end: int, e: ChargingEntry, f: Field)
    ensures SumField(AddPair(buckets, start, end, e), f) == SumField(buckets, f) +
      (if FirstBucket(Stamps(buckets), start, end).Some? then Contribution(e, f) else 0.0)
  {
    var fb := FirstBucket(Stamps(buckets), start, end);
    if fb.Some? {
      var k := fb.value;
      assert AddPair(buckets, start, end, e) == buckets[k := AddEntry(buckets[k], e)];
      SumFieldUpdate(buckets, k, AddEntry(buckets[k], e), f);
    }
  }

  lemma {:induction false} AddPairsTotal(buckets: seq<DataEntry>, hh: seq<ChargingEntry>, n: nat, f: Field)
    requires n < |hh|
    ensures SumField(AddPairs(buckets, hh, n), f) == SumField(buckets, f) + PairsTotal(Stamps(buckets), hh, n, f)
  {
    if n > 0 {
      AddPairsTotal(buckets, hh, n - 1, f);
      var b := AddPairs(buckets, hh, n - 1);
      AddPairTotal(b, hh[n - 1].timestamp, hh[n].timestamp, hh[n - 1], f);
    }
  }

  /** Accumulation conserves every column: the buckets gain exactly what the matched hour
      pairs of the kept sessions carry. */
  lemma {:induction false} AccumulateTotal(buckets: seq<DataEntry>, recs: seq<SessionRecord>, sel: Selection, ws: int, we: int, f: Field)
    ensures SumField(Accumulate(buckets, recs, sel, ws, we), f) ==
      SumField(buckets, f) + ReportTotal(Stamps(buckets), recs, sel, ws, we, f)
  {
    if recs != [] {
      AccumulateTotal(buckets, recs[..|recs| - 1], sel, ws, we, f);
      var b := Accumulate(buckets, recs[..|recs| - 1], sel, ws, we);
      var hh := recs[|recs| - 1].hourly;
      if |hh| > 0 {
        AddPairsTotal(b, hh, |hh| - 1, f);
      }
    }
  }

  lemma {:induction false} EmptyBucketsSum(ds: seq<int>, f: Field)
    ensures SumField(EmptyBuckets(ds), f) == 0.0
  {
    if ds != [] {
      assert EmptyBuckets(ds)[..|ds| - 1] == EmptyBuckets(ds[..|ds| - 1]);
      EmptyBucketsSum(ds[..|ds| - 1], f);
    }
  }

  lemma SumFieldSnoc(rows: seq<DataEntry>, d: DataEntry, f: Field)
    ensures SumField(rows + [d], f) == SumField(rows, f) + FieldOf(d, f)
  {
    assert (rows + [d])[..|rows|] == rows;
  }

  /** Each column of the report sums to what the matched hour pairs of the kept sessions
      carry; the removed closing bucket held nothing. */
  lemma DatasetTotal(recs: seq<SessionRecord>, sel: Selection, start: int, end: int, step: int -> int, f: Field)
    requires forall t :: t < step(t)
    ensures SumField(Dataset(recs, sel, start, end, step), f) ==
      ReportTotal(BucketDates(start, end, step), recs, sel, start, end, f)
  {
    var ds := BucketDates(start, end, step);
    var b := EmptyBuckets(ds);
    assert Stamps(b) == ds;
    AccumulateTotal(b, recs, sel, start, end, f);
    EmptyBucketsSum(ds, f);
    if start <= end {
      DatasetShape(recs, sel, start, end, step);
      var d := Dataset(recs, sel, start, end, step);
      SumFieldSnoc(d, EmptyBucket(ds[|ds| - 1]), f);
    }
  }

  /** An excluded session contributes nothing to the report. */
  lemma ExcludedSessionIgnored(recs: seq<SessionRecord>, r: SessionRecord, sel: Selection, ws: int, we: int,
                               buckets: seq<DataEntry>)
    requires !Kept(r, sel, ws, we)
    ensures Accumulate(buckets, recs + [r], sel, ws, we) == Accumulate(buckets, recs, sel, ws, we)
  {
    assert (recs + [r])[..|recs|] == recs;
  }

  // ---------------------------------------------------------------------------------------
  // The dataset effect
  // ---------------------------------------------------------------------------------------

  /** The dataset effect: builds the buckets, drops every hour pair of every kept session
      into the first bucket that spans it, and removes the closing bucket. */
  method BuildDataset(sessions: seq<Session>, sel: Selection, start: int, end: int, step: int -> int)
    returns (dataset: seq<DataEntry>)
    requires forall t :: t < step(t)
    requires forall i :: 0 <= i < |sessions| ==> sessions[i].hourlyHistory.Some?
    ensures dataset == Dataset(Records(sessions), sel, start, end, step)
  {
    ghost var recs := Records(sessions);
    ghost var empty := EmptyBuckets(BucketDates(start, end, step));
    var result := BuildBuckets(start, end, step);
    var i := 0;
    while i < |sessions|
      invariant 0 <= i <= |sessions|
      invariant result == Accumulate(empty, recs[..i], sel, start, end)
    {
      assert recs[..i + 1][..i] == recs[..i];
      assert recs[..i + 1][i] == recs[i] == RecordOf(sessions[i]);
      var s := sessions[i];
      if sel.group != All && sel.group != s.groupId {
        i := i + 1;
        continue;
      }
      if sel.charger != All && sel.charger != s.chargerId {
        i := i + 1;
        continue;
      }
      if s.endTime.Some? && s.endTime.value < start {
        i := i + 1;
        continue;
      }
      if s.startTime > end {
        i := i + 1;
        continue;
      }
      assert Kept(recs[i], sel, start, end);
      result := AddSessionTo(result, s.hourlyHistory.value);
      i := i + 1;
    }
    assert recs[..i] == recs;
    if |result| > 0 {
      result := result[..|result| - 1];
    }
    dataset := result;
  }

  /** The hour-pair loop for one session: pairs each entry but the last with its successor. */
  method AddSessionTo(result: seq<DataEntry>, hh: seq<ChargingEntry>) returns (r: seq<DataEntry>)
    ensures r == AddSession(result, hh)
  {
    r := result;
    var ci := 0;
    while ci < |hh| - 1
      invariant 0 <= ci && (0 < |hh| ==> ci <= |hh| - 1)
      invariant 0 < |hh| ==> r == AddPairs(result, hh, ci)
      invariant |hh| == 0 ==> r == result
    {
      r := AddPairTo(r, hh[ci].timestamp, hh[ci + 1].timestamp, hh[ci]);
      ci := ci + 1;
    }
  }

  /** The bucket loop for one hour pair: scans the buckets in order and adds the entry to the
      first that spans the pair, then stops. */
  method AddPairTo(result: seq<DataEntry>, start: int, end: int, e: ChargingEntry) returns (r: seq<DataEntry>)
    ensures r == AddPair(result, start, end, e)
  {
    r := result;
    var bi := 0;
    while bi < |r| - 1
      invariant bi == 0 || 0 <= bi <= |r| - 1
      invariant r == result
      invariant forall j :: 0 <= j < bi ==> !Contains(Stamps(result), j, start, end)
    {
      var bstart := r[bi].timestamp;
      var bend := r[bi + 1].timestamp;
      if start >= bstart && end <= bend {
        assert Contains(Stamps(result), bi, start, end);
        assert FirstBucket(Stamps(result), start, end) == Some(bi);
        r := r[bi := r[bi].(energy := r[bi].energy + e.wh / 1000.0,
                            price := r[bi].price + e.price,
                            tariffPrice := r[bi].tariffPrice + e.tariffPrice,
                            spotPrice := r[bi].spotPrice + e.spotPrice)];
        return;
      }
      bi := bi + 1;
    }
    assert FirstBucket(Stamps(result), start, end).None?;
  }

  // ---------------------------------------------------------------------------------------
  // Total row and averages
  // ---------------------------------------------------------------------------------------

  /** The total-row effect: one row whose columns are the sums over the dataset. */
  method TotalRow(dataset: seq<DataEntry>) returns (row: DataEntry)
    ensures row.timestamp == 0
    ensures forall f :: FieldOf(row, f) == SumField(dataset, f)
  {
    var sum, sumPrice, sumSpotPrice, sumTariffPrice := 0.0, 0.0, 0.0, 0.0;
    var i := 0;
    while i < |dataset|
      invariant 0 <= i <= |dataset|
      invariant sum == SumField(dataset[..i], Energy)
      invariant sumTariffPrice == SumField(dataset[..i], TariffPrice)
      invariant sumSpotPrice == SumField(dataset[..i], SpotPrice)
      invariant sumPrice == SumField(dataset[..i], Price)
    {
      assert dataset[..i + 1][..i] == dataset[..i];
      sum := sum + dataset[i].energy;
      sumTariffPrice := sumTariffPrice + dataset[i].tariffPrice;
      sumSpotPrice := sumSpotPrice + dataset[i].spotPrice;
      sumPrice := sumPrice + dataset[i].price;
      i := i + 1;
    }
    assert dataset[..i] == dataset;
    row := DataEntry(0, sum, sumTariffPrice, sumSpotPrice, sumPrice);
  }

  /** An average-per-kWh column (tariff, spot or price): 0 for a row without energy, else
      the column divided by the row's energy. */
  function AveragePerKwh(row: DataEntry, f: Field): (r: real)
    ensures row.energy == 0.0 ==> r == 0.0
    ensures row.energy != 0.0 ==> r * row.energy == FieldOf(row, f)
  {
    if row.energy == 0.0 then 0.0 else FieldOf(row, f) / row.energy
  }

  // ---------------------------------------------------------------------------------------
  // Augmentation and pricing effect
  // ---------------------------------------------------------------------------------------

  /** A session's fields after augmentation then pricing. */
  function Processed(start: int, meter: real, st: SessionState, now: int, prices: EPricing.ZonePrices,
                     zone: string, clock: int -> EPricing.LocalTime): SessionState
    requires SessionSupport.CanAugment(start, meter, st.endTime, now)
  {
    EPricing.PricedState(SessionSupport.AugmentedState(start, meter, st, now), prices, zone, clock)
  }

  /** The effect reruns on its own flag change, so the sessions may be augmented and priced
      twice; the second pass (at the same time `now`) changes nothing. */
  lemma ProcessedIdempotent(start: int, meter: real, st: SessionState, now: int, prices: EPricing.ZonePrices,
                            zone: string, clock: int -> EPricing.LocalTime)
    requires SessionSupport.CanAugment(start, meter, st.endTime, now)
    ensures var p := Processed(start, meter, st, now, prices, zone, clock);
      SessionSupport.CanAugment(start, meter, p.endTime, now) &&
      Processed(start, meter, p, now, prices, zone, clock) == p
  {
    var a := SessionSupport.AugmentedState(start, meter, st, now);
    var p := EPricing.PricedState(a, prices, zone, clock);
    SessionSupport.AugmentIdempotent(start, meter, st, now);
    assert SessionSupport.AugmentedState(start, meter, p, now) ==
      SessionSupport.AugmentedState(start, meter, a, now).(tariffPrice := p.tariffPrice, spotPrice := p.spotPrice, price := p.price);
  }

  /** The augmentation effect: augments every session, then prices them all. */
  method AugmentAndPrice(sessions: seq<Session>, chargers: seq<Charger>, prices: EPricing.ZonePrices,
                         clock: int -> EPricing.LocalTime, now: int)
    requires forall i :: 0 <= i < |sessions| ==>
      SessionSupport.CanAugment(sessions[i].startTime, sessions[i].energyMeter, sessions[i].endTime, now)
    modifies sessions
    ensures forall i :: 0 <= i < |sessions| ==>
      sessions[i].State() == Processed(sessions[i].startTime, sessions[i].energyMeter, old(sessions[i].State()), now,
                                       prices, EPricing.SessionZone(chargers, sessions[i].chargerId), clock)
  {
    SessionSupport.AugmentSessionData(sessions, now);
    EPricing.PriceSessionData(sessions, chargers, prices, clock);
  }
}
