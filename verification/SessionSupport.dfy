/** Per-session energy reconstruction (src/common/SessionSupport.tsx): from a session's sparse
    current samples to hour-aligned energy entries whose total matches the hardware meter. */
module SessionSupport {
  import opened Types

  const HourSeconds: int := 3600
  /** The synthetic duration given to a session whose end is not after its start. */
  const RepairSeconds: int := 1800

  function Min(a: int, b: int): int { if a <= b then a else b }
  function Max(a: int, b: int): int { if a <= b then b else a }
  function Abs(x: real): real { if x < 0.0 then -x else x }

  /** Start of the hour containing `t` (the model of dayjs' startOf("hour")). */
  function FloorHour(t: int): (r: int)
    ensures r <= t < r + HourSeconds
    ensures r % HourSeconds == 0
  {
    t - t % HourSeconds
  }

  // ---------------------------------------------------------------------------------------
  // Repair of the end time
  // ---------------------------------------------------------------------------------------

  /** The end time after the repair of an end that is not after the start. */
  function RepairedEnd(start: int, end: Option<int>): (r: Option<int>)
    ensures r.Some? <==> end.Some?
    ensures r.Some? ==> start < r.value
    ensures end.Some? && start < end.value ==> r == end
    ensures end.Some? && end.value <= start ==> r == Some(start + RepairSeconds)
  {
    if end.Some? && end.value <= start then Some(start + RepairSeconds) else end
  }

  /** Repairing twice changes nothing more than repairing once. */
  lemma RepairIdempotent(start: int, end: Option<int>)
    ensures RepairedEnd(start, RepairedEnd(start, end)) == RepairedEnd(start, end)
  {
  }

  /** The end of a finished session, or the current time for one still in progress. */
  function EffectiveEnd(end: Option<int>, now: int): int {
    end.GetOr(now)
  }

  // ---------------------------------------------------------------------------------------
  // Sample intervals and the held current
  // ---------------------------------------------------------------------------------------

  /** End of the interval that starts at sample `i`: the next sample, or the effective end. */
  function IntervalEnd(h: seq<ChargingEntry>, i: nat, effEnd: int): int
    requires i < |h|
  {
    if i == |h| - 1 then effEnd else h[i + 1].timestamp
  }

  function IntervalSeconds(h: seq<ChargingEntry>, i: nat, effEnd: int): int
    requires i < |h|
  {
    IntervalEnd(h, i, effEnd) - h[i].timestamp
  }

  /** Total length of the intervals of the first `n` samples. */
  function SecondsOfFirst(h: seq<ChargingEntry>, n: nat, effEnd: int): int
    requires n <= |h|
  {
    if n == 0 then 0 else SecondsOfFirst(h, n - 1, effEnd) + IntervalSeconds(h, n - 1, effEnd)
  }

  /** The sample intervals tile the span from the first sample to the effective end. */
  lemma {:induction false} IntervalsTile(h: seq<ChargingEntry>, n: nat, effEnd: int)
    requires 0 < n <= |h|
    ensures SecondsOfFirst(h, n, effEnd) == IntervalEnd(h, n - 1, effEnd) - h[0].timestamp
  {
    if n > 1 {
      IntervalsTile(h, n - 1, effEnd);
    }
  }

  /** One step of the held current: a reported usage always wins; an offered current is
      taken only while nothing is held yet. */
  function NextHeld(held: Option<real>, e: ChargingEntry): (r: Option<real>)
    ensures e.usage.Some? ==> r == e.usage
    ensures e.usage.None? && held.Some? ==> r == held
    ensures e.usage.None? && held.None? ==> r == e.offered
  {
    if e.usage.Some? then e.usage
    else if held.None? && e.offered.Some? then e.offered
    else held
  }

  /** The held current after the first `n` samples. */
  function HeldAfter(h: seq<ChargingEntry>, n: nat): Option<real>
    requires n <= |h|
  {
    if n == 0 then None else NextHeld(HeldAfter(h, n - 1), h[n - 1])
  }

  lemma FirstReadingSnoc(s: seq<ChargingEntry>, e: ChargingEntry, r: Reading)
    ensures FirstReading(s + [e], r) ==
      if FirstReading(s, r).Some? then FirstReading(s, r) else ReadingOf(e, r)
  {
    if s != [] {
      assert (s + [e])[1..] == s[1..] + [e];
      FirstReadingSnoc(s[1..], e, r);
    }
  }

  /** The held current is the latest reported usage; before any usage is reported it is the
      earliest offered current. */
  lemma {:induction false} HeldIsLatestUsageElseFirstOffered(h: seq<ChargingEntry>, n: nat)
    requires n <= |h|
    ensures HeldAfter(h, n) ==
      if LatestReading(h[..n], Usage).Some? then LatestReading(h[..n], Usage)
      else FirstReading(h[..n], Offered)
  {
    if n > 0 {
      HeldIsLatestUsageElseFirstOffered(h, n - 1);
      LatestReadingStep(h, n - 1, Usage);
      assert h[..n] == h[..n - 1] + [h[n - 1]];
      FirstReadingSnoc(h[..n - 1], h[n - 1], Offered);
    }
  }

  /** Once a current is held, later samples that report no usage leave it unchanged,
      whatever they offer. */
  lemma {:induction false} HeldSticky(h: seq<ChargingEntry>, m: nat, n: nat)
    requires m <= n <= |h|
    requires HeldAfter(h, m).Some?
    requires forall j :: m <= j < n ==> h[j].usage.None?
    ensures HeldAfter(h, n) == HeldAfter(h, m)
  {
    if m < n {
      HeldSticky(h, m, n - 1);
    }
  }

  // ---------------------------------------------------------------------------------------
  // Raw energy per sample and rescaling to the meter
  // ---------------------------------------------------------------------------------------

  /** Raw energy of sample `i`: held current (0 when none) times the interval, in hours. */
  function RawWh(h: seq<ChargingEntry>, i: nat, effEnd: int): real
    requires i < |h|
  {
    HeldAfter(h, i + 1).GetOr(0.0) * (IntervalSeconds(h, i, effEnd) as real) / 3600.0
  }

  function RawWhs(h: seq<ChargingEntry>, effEnd: int): (ws: seq<real>)
    ensures |ws| == |h|
  {
    seq(|h|, i requires 0 <= i < |h| => RawWh(h, i, effEnd))
  }

  function Scale(s: seq<real>, c: real): (r: seq<real>)
    ensures |r| == |s|
    ensures forall i :: 0 <= i < |s| ==> r[i] == s[i] * c
  {
    seq(|s|, i requires 0 <= i < |s| => s[i] * c)
  }

  /** `raw` with every entry except the last multiplied by `f`. */
  function ScaleAllButLast(raw: seq<real>, f: real): (ws: seq<real>)
    requires raw != []
    ensures |ws| == |raw|
    ensures forall i :: 0 <= i < |raw| - 1 ==> ws[i] == raw[i] * f
    ensures ws[|raw| - 1] == raw[|raw| - 1]
  {
    Scale(raw[..|raw| - 1], f) + [raw[|raw| - 1]]
  }

  /** The rescaled sample energies: when the raw total is non-zero, every sample except the
      last is multiplied by meter / total; the last keeps its raw value. */
  function Rescaled(raw: seq<real>, meter: real): (ws: seq<real>)
    ensures |ws| == |raw|
    ensures Sum(raw) == 0.0 ==> ws == raw
    ensures Sum(raw) != 0.0 ==> ws == ScaleAllButLast(raw, meter / Sum(raw))
  {
    if Sum(raw) == 0.0 then raw
    else ScaleAllButLast(raw, meter / Sum(raw))
  }

  lemma {:induction false} SumAppend(a: seq<real>, b: seq<real>)
    ensures Sum(a + b) == Sum(a) + Sum(b)
  {
    if b == [] {
      assert a + b == a;
    } else {
      var ab := a + b;
      assert ab[..|ab| - 1] == a + b[..|b| - 1];
      assert ab[|ab| - 1] == b[|b| - 1];
      SumAppend(a, b[..|b| - 1]);
      assert Sum(ab) == Sum(ab[..|ab| - 1]) + ab[|ab| - 1];
    }
  }

  lemma {:induction false} SumScale(s: seq<real>, c: real)
    ensures Sum(Scale(s, c)) == Sum(s) * c
  {
    if s != [] {
      var n := |s|;
      var t := Scale(s, c);
      var u := Scale(s[..n - 1], c);
      assert t[..n - 1] == u by {
        assert forall i :: 0 <= i < n - 1 ==> t[..n - 1][i] == u[i];
      }
      SumScale(s[..n - 1], c);
      assert Sum(t) == Sum(u) + t[n - 1];
      Distribute(Sum(s[..n - 1]), s[n - 1], c);
    }
  }

  lemma Distribute(a: real, b: real, c: real)
    ensures a * c + b * c == (a + b) * c
  {
  }

  /** After rescaling, the sample energies add up to the meter except for the unscaled last
      sample's share: with total = Sum(raw) and f = meter / total, the sum is
      meter + last - last * f, so it matches the meter exactly when the last sample has no
      raw energy. */
  lemma RescaledTotal(raw: seq<real>, meter: real, r: real, total: real, f: real, last: real)
    requires raw != [] && total == Sum(raw) && total != 0.0
    requires f == meter / total && last == raw[|raw| - 1]
    requires r == Sum(Rescaled(raw, meter))
    ensures r == meter + last - last * f
    ensures last == 0.0 ==> r == meter
  {
    var p := Sum(raw[..|raw| - 1]);
    RescaledSplit(raw, meter, f);
    assert r == p * f + last;
    SumSnoc(raw);
    assert total == p + last;
    RescaleArith(r, p, last, total, meter, f);
  }

  lemma RescaledSplit(raw: seq<real>, meter: real, f: real)
    requires raw != [] && Sum(raw) != 0.0 && f == meter / Sum(raw)
    ensures Sum(Rescaled(raw, meter)) == Sum(raw[..|raw| - 1]) * f + raw[|raw| - 1]
  {
    assert Rescaled(raw, meter) == ScaleAllButLast(raw, f);
    ScaleAllButLastSum(raw, f);
  }

  lemma SumSnoc(s: seq<real>)
    requires 0 < |s|
    ensures Sum(s) == Sum(s[..|s| - 1]) + s[|s| - 1]
  {
  }

  lemma ScaleAllButLastSum(raw: seq<real>, f: real)
    requires raw != []
    ensures Sum(ScaleAllButLast(raw, f)) == Sum(raw[..|raw| - 1]) * f + raw[|raw| - 1]
  {
    var init, last := raw[..|raw| - 1], raw[|raw| - 1];
    SumAppend(Scale(init, f), [last]);
    SumScale(init, f);
    assert [last][..0] == [];
  }

  lemma RescaleArith(r: real, p: real, last: real, total: real, meter: real, f: real)
    requires total == p + last && total != 0.0 && f == meter / total
    requires r == p * f + last
    ensures r == meter + last - last * f
    ensures last == 0.0 ==> r == meter
  {
    assert f * total == meter;
    assert p * f == (total - last) * f;
  }

  /** The `wh` fields of a sequence of entries. */
  function Whs(h: seq<ChargingEntry>): (ws: seq<real>)
    ensures |ws| == |h|
    ensures forall i :: 0 <= i < |h| ==> ws[i] == h[i].wh
  {
    seq(|h|, i requires 0 <= i < |h| => h[i].wh)
  }

  /** The entries with their `wh` fields replaced by `ws`. */
  function WithWh(h: seq<ChargingEntry>, ws: seq<real>): (r: seq<ChargingEntry>)
    requires |ws| == |h|
    ensures |r| == |h|
    ensures forall i :: 0 <= i < |h| ==> r[i] == h[i].(wh := ws[i])
  {
    seq(|h|, i requires 0 <= i < |h| => h[i].(wh := ws[i]))
  }

  /** Replacing the energies and reading them back are inverse; a second replacement
      overrides the first. */
  lemma WithWhWhs(h: seq<ChargingEntry>, ws: seq<real>, vs: seq<real>)
    requires |ws| == |h| == |vs|
    ensures Whs(WithWh(h, ws)) == ws
    ensures WithWh(h, Whs(h)) == h
    ensures WithWh(WithWh(h, ws), vs) == WithWh(h, vs)
  {
    assert forall i :: 0 <= i < |h| ==> WithWh(h, Whs(h))[i] == h[i];
  }

  /** The charging history after interpolation and rescaling. */
  function AugmentedHistory(h: seq<ChargingEntry>, effEnd: int, meter: real): seq<ChargingEntry> {
    WithWh(h, Rescaled(RawWhs(h, effEnd), meter))
  }

  // ---------------------------------------------------------------------------------------
  // Hourly timeline and overlap distribution
  // ---------------------------------------------------------------------------------------

  /** Hour starts from the hour of `start` up to and including the hour after `effEnd`. */
  function Timeline(start: int, effEnd: int): (tl: seq<int>)
    ensures FloorHour(start) <= FloorHour(effEnd) + HourSeconds ==> 0 < |tl|
    ensures FloorHour(effEnd) + HourSeconds < FloorHour(start) ==> tl == []
    ensures start <= effEnd ==> 2 <= |tl|
    ensures 0 < |tl| ==> tl[0] == FloorHour(start) && tl[|tl| - 1] == FloorHour(effEnd) + HourSeconds
    ensures forall k :: 0 <= k < |tl| ==> tl[k] == FloorHour(start) + HourSeconds * k
    ensures forall k :: 0 <= k < |tl| - 1 ==> tl[k + 1] - tl[k] == HourSeconds
  {
    var first := FloorHour(start);
    var last := FloorHour(effEnd) + HourSeconds;
    if last < first then []
    else
      var n := (last - first) / HourSeconds + 1;
      assert first + HourSeconds * (n - 1) == last;
      seq(n, k requires 0 <= k < n => first + HourSeconds * k)
  }

  /** A fresh hourly entry: no currents, no energy, no prices. */
  function HourEntry(t: int): ChargingEntry {
    ChargingEntry(t, None, None, 0.0, 0.0, 0.0, 0.0, None)
  }

  function Overlap(s: int, e: int, bs: int, be: int): int {
    Min(e, be) - Max(s, bs)
  }

  /** The part of energy `wh`, spread evenly over [s, e), that falls in [bs, be). */
  function Share(wh: real, s: int, e: int, bs: int, be: int): (r: real)
    ensures Overlap(s, e, bs, be) <= 0 ==> r == 0.0
  {
    var ov := Overlap(s, e, bs, be);
    if ov <= 0 then 0.0 else wh * ((ov as real) / ((e - s) as real))
  }

  /** A positive overlap lies in a sample of positive length, and the share is the energy
      in proportion to the overlap. */
  lemma ShareProportional(wh: real, s: int, e: int, bs: int, be: int)
    requires 0 < Overlap(s, e, bs, be)
    ensures s < e && Share(wh, s, e, bs, be) * ((e - s) as real) == wh * (Overlap(s, e, bs, be) as real)
  {
  }

  /** What sample `c` contributes to hourly entry `k`; nothing for a zero-length sample, and
      nothing for the closing entry, which starts no hour pair. */
  function SampleShare(h: seq<ChargingEntry>, effEnd: int, tl: seq<int>, c: nat, k: nat): real
    requires c < |h| && k < |tl|
  {
    var s := h[c].timestamp;
    var e := IntervalEnd(h, c, effEnd);
    if s == e || k == |tl| - 1 then 0.0 else Share(h[c].wh, s, e, tl[k], tl[k + 1])
  }

  /** Energy of hourly entry `k` from the first `n` samples. */
  function Distributed(h: seq<ChargingEntry>, effEnd: int, tl: seq<int>, k: nat, n: nat): real
    requires n <= |h| && k < |tl|
  {
    if n == 0 then 0.0 else Distributed(h, effEnd, tl, k, n - 1) + SampleShare(h, effEnd, tl, n - 1, k)
  }

  function HourWhs(h: seq<ChargingEntry>, effEnd: int, tl: seq<int>): (ws: seq<real>)
    ensures |ws| == |tl|
  {
    seq(|tl|, k requires 0 <= k < |tl| => Distributed(h, effEnd, tl, k, |h|))
  }

  /** The closing hourly entry never receives a distributed contribution. */
  lemma {:induction false} ClosingEntryGetsNothing(h: seq<ChargingEntry>, effEnd: int, tl: seq<int>, n: nat)
    requires 0 < |tl| && n <= |h|
    ensures Distributed(h, effEnd, tl, |tl| - 1, n) == 0.0
  {
    if n > 0 {
      ClosingEntryGetsNothing(h, effEnd, tl, n - 1);
    }
  }

  // ---------------------------------------------------------------------------------------
  // Conservation of the distribution
  // ---------------------------------------------------------------------------------------

  predicate Increasing(tl: seq<int>) {
    forall k :: 0 <= k < |tl| - 1 ==> tl[k] < tl[k + 1]
  }

  /** The samples are in time order and lie within [lo, effEnd]. */
  predicate SortedWithin(h: seq<ChargingEntry>, lo: int, effEnd: int) {
    && (forall i, j :: 0 <= i < j < |h| ==> h[i].timestamp <= h[j].timestamp)
    && (forall i :: 0 <= i < |h| ==> lo <= h[i].timestamp <= effEnd)
  }

  /** Seconds of [s, e) inside [bs, be). */
  function Covered(s: int, e: int, bs: int, be: int): int {
    if Overlap(s, e, bs, be) <= 0 then 0 else Overlap(s, e, bs, be)
  }

  /** Seconds of [s, e) inside the first `m` hour pairs of `tl`. */
  function CoveredBy(s: int, e: int, tl: seq<int>, m: nat): int
    requires m < |tl|
  {
    if m == 0 then 0 else CoveredBy(s, e, tl, m - 1) + Covered(s, e, tl[m - 1], tl[m])
  }

  /** Adjacent hours cover [s, e) between them exactly as their union does. */
  lemma {:induction false} CoveredByHull(s: int, e: int, tl: seq<int>, m: nat)
    requires s <= e && 0 < m < |tl| && Increasing(tl)
    ensures tl[0] < tl[m]
    ensures CoveredBy(s, e, tl, m) == Covered(s, e, tl[0], tl[m])
  {
    if m > 1 {
      CoveredByHull(s, e, tl, m - 1);
    }
  }

  /** What sample `c` contributes to the first `m` hourly entries. */
  function SharesOf(h: seq<ChargingEntry>, effEnd: int, tl: seq<int>, c: nat, m: nat): real
    requires c < |h| && m <= |tl|
  {
    if m == 0 then 0.0 else SharesOf(h, effEnd, tl, c, m - 1) + SampleShare(h, effEnd, tl, c, m - 1)
  }

  function SumTo(f: nat -> real, m: nat): real {
    if m == 0 then 0.0 else SumTo(f, m - 1) + f(m - 1)
  }

  function ShareFn(h: seq<ChargingEntry>, effEnd: int, tl: seq<int>, c: nat): nat -> real
    requires c < |h|
  {
    (k: nat) => if k < |tl| then SampleShare(h, effEnd, tl, c, k) else 0.0
  }

  function CoverFn(s: int, e: int, tl: seq<int>): nat -> real {
    (k: nat) => if k < |tl| - 1 then Covered(s, e, tl[k], tl[k + 1]) as real else 0.0
  }

  lemma {:induction false} SharesOfIsSumTo(h: seq<ChargingEntry>, effEnd: int, tl: seq<int>, c: nat, m: nat)
    requires c < |h| && m <= |tl|
    ensures SharesOf(h, effEnd, tl, c, m) == SumTo(ShareFn(h, effEnd, tl, c), m)
  {
    if m > 0 {
      SharesOfIsSumTo(h, effEnd, tl, c, m - 1);
    }
  }

  lemma {:induction false} CoveredByIsSumTo(s: int, e: int, tl: seq<int>, m: nat)
    requires m < |tl|
    ensures CoveredBy(s, e, tl, m) as real == SumTo(CoverFn(s, e, tl), m)
  {
    if m > 0 {
      CoveredByIsSumTo(s, e, tl, m - 1);
    }
  }

  /** One hour's share is the sample's energy times the fraction of the sample the hour covers. */
  lemma ShareFnDivided(h: seq<ChargingEntry>, effEnd: int, tl: seq<int>, c: nat, k: nat, len: real,
                       f: nat -> real, g: nat -> real)
    requires c < |h| && k < |tl| - 1
    requires h[c].timestamp < IntervalEnd(h, c, effEnd)
    requires len == (IntervalEnd(h, c, effEnd) - h[c].timestamp) as real
    requires f == ShareFn(h, effEnd, tl, c) && g == CoverFn(h[c].timestamp, IntervalEnd(h, c, effEnd), tl)
    ensures f(k) == h[c].wh * (g(k) / len)
  {
    var s, e := h[c].timestamp, IntervalEnd(h, c, effEnd);
    assert f(k) == Share(h[c].wh, s, e, tl[k], tl[k + 1]);
    assert g(k) == Covered(s, e, tl[k], tl[k + 1]) as real;
  }

  /** f(k) == wh * (g(k) / len) for every k below m. */
  predicate DividedUpTo(f: nat -> real, g: nat -> real, len: real, wh: real, m: nat)
    requires len != 0.0
  {
    m == 0 || (DividedUpTo(f, g, len, wh, m - 1) && f(m - 1) == wh * (g(m - 1) / len))
  }

  lemma DivideStep(a: real, b: real, len: real, wh: real)
    requires len != 0.0
    ensures wh * (a / len) + wh * (b / len) == wh * ((a + b) / len)
  {
    assert (a + b) / len == a / len + b / len;
  }

  /** Termwise f(k) == wh * (g(k) / len) carries over to the sums. */
  lemma {:induction false} DividedSumTo(f: nat -> real, g: nat -> real, len: real, wh: real, m: nat)
    requires len != 0.0 && DividedUpTo(f, g, len, wh, m)
    ensures SumTo(f, m) == wh * (SumTo(g, m) / len)
  {
    if m > 0 {
      DividedSumTo(f, g, len, wh, m - 1);
      DivideStep(SumTo(g, m - 1), g(m - 1), len, wh);
    }
  }

  /** When the `g` terms add up to `len`, the `f` terms add up to `wh`. */
  lemma DividedSumCancels(f: nat -> real, g: nat -> real, len: real, wh: real, m: nat)
    requires 0.0 < len && SumTo(g, m) == len && DividedUpTo(f, g, len, wh, m)
    ensures SumTo(f, m) == wh
  {
    DividedSumTo(f, g, len, wh, m);
    assert SumTo(g, m) / len == 1.0;
  }

  lemma {:induction false} SharesDivided(h: seq<ChargingEntry>, effEnd: int, tl: seq<int>, c: nat, len: real,
                                          f: nat -> real, g: nat -> real, m: nat)
    requires c < |h| && m < |tl| && h[c].timestamp < IntervalEnd(h, c, effEnd)
    requires len == (IntervalEnd(h, c, effEnd) - h[c].timestamp) as real
    requires f == ShareFn(h, effEnd, tl, c) && g == CoverFn(h[c].timestamp, IntervalEnd(h, c, effEnd), tl)
    ensures DividedUpTo(f, g, len, h[c].wh, m)
  {
    if m > 0 {
      SharesDivided(h, effEnd, tl, c, len, f, g, m - 1);
      ShareFnDivided(h, effEnd, tl, c, m - 1, len, f, g);
    }
  }

  /** When the timeline covers the whole sample, the sample's shares add up to its energy. */
  lemma SharesAddUp(h: seq<ChargingEntry>, effEnd: int, tl: seq<int>, c: nat, len: real,
                    f: nat -> real, g: nat -> real)
    requires c < |h| && 0 < |tl| && h[c].timestamp < IntervalEnd(h, c, effEnd)
    requires len == (IntervalEnd(h, c, effEnd) - h[c].timestamp) as real
    requires f == ShareFn(h, effEnd, tl, c) && g == CoverFn(h[c].timestamp, IntervalEnd(h, c, effEnd), tl)
    requires SumTo(g, |tl| - 1) == len
    ensures SumTo(f, |tl| - 1) == h[c].wh
  {
    SharesDivided(h, effEnd, tl, c, len, f, g, |tl| - 1);
    DividedSumCancels(f, g, len, h[c].wh, |tl| - 1);
  }

  /** A sample of positive length inside the timeline hands out exactly its energy. */
  lemma SampleConserves(h: seq<ChargingEntry>, effEnd: int, tl: seq<int>, c: nat)
    requires c < |h| && 0 < |tl| && Increasing(tl)
    requires tl[0] <= h[c].timestamp < IntervalEnd(h, c, effEnd) <= tl[|tl| - 1]
    ensures SharesOf(h, effEnd, tl, c, |tl|) == h[c].wh
  {
    var s, e := h[c].timestamp, IntervalEnd(h, c, effEnd);
    var n := |tl| - 1;
    var len := (e - s) as real;
    var f, g := ShareFn(h, effEnd, tl, c), CoverFn(s, e, tl);
    SharesOfIsSumTo(h, effEnd, tl, c, n);
    CoveredByIsSumTo(s, e, tl, n);
    CoveredByHull(s, e, tl, n);
    assert CoveredBy(s, e, tl, n) == e - s;
    SharesAddUp(h, effEnd, tl, c, len, f, g);
    var x := SharesOf(h, effEnd, tl, c, n);
    assert SharesOf(h, effEnd, tl, c, |tl|) == x + SampleShare(h, effEnd, tl, c, n);
  }

  /** A sample of zero length hands out nothing. */
  lemma {:induction false} ZeroLengthSampleIdle(h: seq<ChargingEntry>, effEnd: int, tl: seq<int>, c: nat, m: nat)
    requires c < |h| && m <= |tl| && h[c].timestamp == IntervalEnd(h, c, effEnd)
    ensures SharesOf(h, effEnd, tl, c, m) == 0.0
  {
    if m > 0 {
      ZeroLengthSampleIdle(h, effEnd, tl, c, m - 1);
    }
  }

  /** The shares the first `n` samples hand to the first `m` hourly entries. */
  function SampleTotals(h: seq<ChargingEntry>, effEnd: int, tl: seq<int>, n: nat, m: nat): real
    requires n <= |h| && m <= |tl|
  {
    if n == 0 then 0.0 else SampleTotals(h, effEnd, tl, n - 1, m) + SharesOf(h, effEnd, tl, n - 1, m)
  }

  /** Summing by samples or by hours gives the same total. */
  lemma {:induction false} SampleTotalsByHour(h: seq<ChargingEntry>, effEnd: int, tl: seq<int>, n: nat, m: nat)
    requires n <= |h| && 0 < m <= |tl|
    ensures SampleTotals(h, effEnd, tl, n, m) ==
      SampleTotals(h, effEnd, tl, n, m - 1) + Distributed(h, effEnd, tl, m - 1, n)
  {
    if n > 0 {
      SampleTotalsByHour(h, effEnd, tl, n - 1, m);
    }
  }

  lemma {:induction false} SampleTotalsOfNoHour(h: seq<ChargingEntry>, effEnd: int, tl: seq<int>, n: nat)
    requires n <= |h|
    ensures SampleTotals(h, effEnd, tl, n, 0) == 0.0
  {
    if n > 0 {
      SampleTotalsOfNoHour(h, effEnd, tl, n - 1);
    }
  }

  lemma {:induction false} HourSumIsSampleTotals(h: seq<ChargingEntry>, effEnd: int, tl: seq<int>, m: nat)
    requires m <= |tl|
    ensures Sum(HourWhs(h, effEnd, tl)[..m]) == SampleTotals(h, effEnd, tl, |h|, m)
  {
    if m == 0 {
      SampleTotalsOfNoHour(h, effEnd, tl, |h|);
    } else {
      HourSumIsSampleTotals(h, effEnd, tl, m - 1);
      SumPrefixStep(HourWhs(h, effEnd, tl), m - 1);
      SampleTotalsByHour(h, effEnd, tl, |h|, m);
    }
  }

  lemma {:induction false} SampleTotalsAreWhs(h: seq<ChargingEntry>, effEnd: int, tl: seq<int>, n: nat)
    requires n <= |h| && 0 < |tl| && Increasing(tl)
    requires SortedWithin(h, tl[0], effEnd) && effEnd <= tl[|tl| - 1]
    requires forall c :: 0 <= c < |h| && h[c].timestamp == IntervalEnd(h, c, effEnd) ==> h[c].wh == 0.0
    ensures SampleTotals(h, effEnd, tl, n, |tl|) == Sum(Whs(h)[..n])
  {
    if n > 0 {
      var c := n - 1;
      SampleTotalsAreWhs(h, effEnd, tl, c);
      SumPrefixStep(Whs(h), c);
      if c < |h| - 1 {
        assert h[c].timestamp <= h[c + 1].timestamp;
      }
      if h[c].timestamp == IntervalEnd(h, c, effEnd) {
        ZeroLengthSampleIdle(h, effEnd, tl, c, |tl|);
      } else {
        SampleConserves(h, effEnd, tl, c);
      }
    }
  }

  /** Distribution loses and invents no energy: when the samples are in time order within
      the timeline, the hourly entries together receive exactly the samples' energy (a
      zero-length sample, skipped by the loop, must carry none). */
  lemma DistributionConserves(h: seq<ChargingEntry>, effEnd: int, tl: seq<int>)
    requires 0 < |tl| && Increasing(tl)
    requires SortedWithin(h, tl[0], effEnd) && effEnd <= tl[|tl| - 1]
    requires forall c :: 0 <= c < |h| && h[c].timestamp == IntervalEnd(h, c, effEnd) ==> h[c].wh == 0.0
    ensures Sum(HourWhs(h, effEnd, tl)) == Sum(Whs(h))
  {
    var ws := HourWhs(h, effEnd, tl);
    HourSumIsSampleTotals(h, effEnd, tl, |tl|);
    assert ws[..|tl|] == ws;
    SampleTotalsAreWhs(h, effEnd, tl, |h|);
    assert Whs(h)[..|h|] == Whs(h);
  }

  /** Before reconciliation the session's hours hold exactly the rescaled samples' energy:
      the meter reading, plus the unscaled last sample's excess over its scaled share. */
  lemma HoursHoldRescaledEnergy(start: int, effEnd: int, meter: real, h: seq<ChargingEntry>)
    requires start <= effEnd && SortedWithin(h, start, effEnd)
    ensures var raw := RawWhs(h, effEnd);
      var hours := HourWhs(AugmentedHistory(h, effEnd, meter), effEnd, Timeline(start, effEnd));
      && Sum(hours) == Sum(Rescaled(raw, meter))
      && (Sum(raw) == 0.0 ==> Sum(hours) == 0.0)
      && (Sum(raw) != 0.0 ==>
            Sum(hours) == meter + raw[|raw| - 1] - raw[|raw| - 1] * (meter / Sum(raw)))
  {
    var raw := RawWhs(h, effEnd);
    var ws := Rescaled(raw, meter);
    var hours := HourWhs(AugmentedHistory(h, effEnd, meter), effEnd, Timeline(start, effEnd));
    HoursHoldAugmentedEnergy(start, effEnd, meter, h);
    var r := Sum(hours);
    assert r == Sum(ws);
    if Sum(raw) != 0.0 {
      var f, last := meter / Sum(raw), raw[|raw| - 1];
      RescaledTotal(raw, meter, r, Sum(raw), f, last);
      assert r == meter + last - last * f;
    } else {
      assert ws == raw;
    }
  }

  /** The hours hold exactly the rescaled sample energies. */
  lemma HoursHoldAugmentedEnergy(start: int, effEnd: int, meter: real, h: seq<ChargingEntry>)
    requires start <= effEnd && SortedWithin(h, start, effEnd)
    ensures Sum(HourWhs(AugmentedHistory(h, effEnd, meter), effEnd, Timeline(start, effEnd)))
      == Sum(Rescaled(RawWhs(h, effEnd), meter))
  {
    var ws := Rescaled(RawWhs(h, effEnd), meter);
    var a := AugmentedHistory(h, effEnd, meter);
    var tl := Timeline(start, effEnd);
    assert Whs(a) == ws by {
      WithWhWhs(h, ws, ws);
    }
    AugmentedHistoryFit(h, effEnd, meter, start);
    assert tl[0] <= start && effEnd < tl[|tl| - 1];
    DistributionConserves(a, effEnd, tl);
  }

  /** Interpolation and rescaling keep the samples' times, and a zero-length sample ends
      with no energy. */
  lemma AugmentedHistoryFit(h: seq<ChargingEntry>, effEnd: int, meter: real, start: int)
    requires SortedWithin(h, start, effEnd)
    ensures var a := AugmentedHistory(h, effEnd, meter);
      && SortedWithin(a, start, effEnd)
      && forall c :: 0 <= c < |a| && a[c].timestamp == IntervalEnd(a, c, effEnd) ==> a[c].wh == 0.0
  {
    var a := AugmentedHistory(h, effEnd, meter);
    assert forall i :: 0 <= i < |h| ==> a[i].timestamp == h[i].timestamp;
    forall c | 0 <= c < |a| && a[c].timestamp == IntervalEnd(a, c, effEnd)
      ensures a[c].wh == 0.0
    {
      assert IntervalEnd(a, c, effEnd) == IntervalEnd(h, c, effEnd);
      ZeroLengthKeepsNoEnergy(h, effEnd, meter, c);
    }
  }

  /** Rescaling leaves a zero-length sample without energy. */
  lemma ZeroLengthKeepsNoEnergy(h: seq<ChargingEntry>, effEnd: int, meter: real, c: nat)
    requires c < |h| && h[c].timestamp == IntervalEnd(h, c, effEnd)
    ensures AugmentedHistory(h, effEnd, meter)[c].wh == 0.0
  {
    var raw := RawWhs(h, effEnd);
    var ws := Rescaled(raw, meter);
    assert raw[c] == RawWh(h, c, effEnd);
    assert raw[c] == 0.0;
    if Sum(raw) != 0.0 && c < |raw| - 1 {
      assert ws[c] == raw[c] * (meter / Sum(raw));
    }
  }

  // ---------------------------------------------------------------------------------------
  // Reconciliation and running total
  // ---------------------------------------------------------------------------------------

  lemma SumAddFirst(ws: seq<real>, d: real)
    requires 0 < |ws|
    ensures Sum(ws[0 := ws[0] + d]) == Sum(ws) + d
    ensures ws[0 := ws[0] + d][1..] == ws[1..]
  {
    var w' := ws[0 := ws[0] + d];
    assert ws == [ws[0]] + ws[1..];
    assert w' == [ws[0] + d] + ws[1..];
    SumAppend([ws[0]], ws[1..]);
    SumAppend([ws[0] + d], ws[1..]);
    assert Sum([ws[0]]) == ws[0];
    assert Sum([ws[0] + d]) == ws[0] + d;
  }

  /** Hourly energies after reconciliation: a mismatch of more than 1 Wh with the meter is
      injected whole into the first entry. */
  function Reconciled(ws: seq<real>, meter: real): (r: seq<real>)
    requires 0 < |ws| || Abs(Sum(ws) - meter) <= 1.0
    ensures |r| == |ws|
    ensures Abs(Sum(r) - meter) <= 1.0
    ensures Abs(Sum(ws) - meter) > 1.0 ==> Sum(r) == meter && r[1..] == ws[1..]
    ensures Abs(Sum(ws) - meter) <= 1.0 ==> r == ws
  {
    if Abs(Sum(ws) - meter) > 1.0 then
      SumAddFirst(ws, meter - Sum(ws));
      ws[0 := ws[0] + (meter - Sum(ws))]
    else
      ws
  }

  lemma SumPrefixStep(s: seq<real>, i: nat)
    requires i < |s|
    ensures Sum(s[..i + 1]) == Sum(s[..i]) + s[i]
  {
    assert s[..i + 1][..i] == s[..i];
  }

  /** Running totals of the hourly energies (the source's kwh_total, which holds Wh). */
  function RunningTotals(ws: seq<real>): (r: seq<real>)
    ensures |r| == |ws|
  {
    seq(|ws|, i requires 0 <= i < |ws| => Sum(ws[..i + 1]))
  }

  /** Each running total adds exactly its own hour's energy to the previous one. */
  lemma RunningTotalsStep(ws: seq<real>, i: nat)
    requires 0 < i < |ws|
    ensures RunningTotals(ws)[i] == RunningTotals(ws)[i - 1] + ws[i]
  {
    var r := RunningTotals(ws);
    assert r[i] == Sum(ws[..i + 1]);
    assert r[i - 1] == Sum(ws[..i]);
    SumPrefixStep(ws, i);
  }

  /** The last running total is the sum of all hourly energies. */
  lemma RunningTotalsLast(ws: seq<real>)
    requires 0 < |ws|
    ensures RunningTotals(ws)[|ws| - 1] == Sum(ws)
  {
    assert ws[..|ws|] == ws;
  }

  /** Fresh hourly entries, one per timeline hour. */
  function HourEntries(tl: seq<int>): (r: seq<ChargingEntry>)
    ensures |r| == |tl|
    ensures forall k :: 0 <= k < |tl| ==> r[k] == HourEntry(tl[k])
  {
    seq(|tl|, k requires 0 <= k < |tl| => HourEntry(tl[k]))
  }

  /** The entries with their `kwhTotal` fields set from `ts`. */
  function WithTotals(h: seq<ChargingEntry>, ts: seq<real>): (r: seq<ChargingEntry>)
    requires |ts| == |h|
    ensures |r| == |h|
    ensures forall i :: 0 <= i < |h| ==> r[i] == h[i].(kwhTotal := Some(ts[i]))
  {
    seq(|h|, i requires 0 <= i < |h| => h[i].(kwhTotal := Some(ts[i])))
  }

  /** The session's hourly history: every timeline entry, the closing one included, with the
      distributed and reconciled energy and the running total. */
  function HourlyHistory(start: int, effEnd: int, meter: real, h: seq<ChargingEntry>): (r: seq<ChargingEntry>)
    requires FloorHour(start) <= FloorHour(effEnd) + HourSeconds || Abs(meter) <= 1.0
    ensures |r| == |Timeline(start, effEnd)|
  {
    var tl := Timeline(start, effEnd);
    var ws := Reconciled(HourWhs(h, effEnd, tl), meter);
    WithTotals(WithWh(HourEntries(tl), ws), RunningTotals(ws))
  }

  /** The hourly history has contiguous hour starts from the start's hour to the hour after
      the end, its energies match the meter within 1 Wh, and its running totals are prefix
      sums. */
  lemma HourlyHistoryMeter(start: int, effEnd: int, meter: real, h: seq<ChargingEntry>)
    requires FloorHour(start) <= FloorHour(effEnd) + HourSeconds || Abs(meter) <= 1.0
    ensures var r := HourlyHistory(start, effEnd, meter, h);
      && Abs(Sum(Whs(r)) - meter) <= 1.0
      && (forall k :: 0 <= k < |r| ==> r[k].kwhTotal == Some(Sum(Whs(r)[..k + 1])))
      && (forall k :: 0 <= k < |r| ==> r[k].timestamp == FloorHour(start) + HourSeconds * k)
  {
    var tl := Timeline(start, effEnd);
    var ws := Reconciled(HourWhs(h, effEnd, tl), meter);
    HourlyHistoryFields(start, effEnd, meter, h, tl, ws);
  }

  lemma HourlyHistoryShape(start: int, effEnd: int, meter: real, h: seq<ChargingEntry>)
    requires start <= effEnd
    ensures var r := HourlyHistory(start, effEnd, meter, h);
      && 2 <= |r|
      && r[0].timestamp == FloorHour(start)
      && r[|r| - 1].timestamp == FloorHour(effEnd) + HourSeconds
      && (forall k :: 0 <= k < |r| - 1 ==> r[k + 1].timestamp - r[k].timestamp == HourSeconds)
      && Abs(Sum(Whs(r)) - meter) <= 1.0
      && (forall k :: 0 <= k < |r| ==> r[k].kwhTotal == Some(Sum(Whs(r)[..k + 1])))
  {
    var tl := Timeline(start, effEnd);
    var ws := Reconciled(HourWhs(h, effEnd, tl), meter);
    var r := HourlyHistory(start, effEnd, meter, h);
    HourlyHistoryFields(start, effEnd, meter, h, tl, ws);
    HourlyHistoryMeter(start, effEnd, meter, h);
    forall k | 0 <= k < |r| - 1
      ensures r[k + 1].timestamp - r[k].timestamp == HourSeconds
    {
      assert r[k].timestamp == tl[k] && r[k + 1].timestamp == tl[k + 1];
    }
  }

  /** Entry `k` of the hourly history: the `k`-th timeline hour, its reconciled energy and
      the running total up to it. */
  lemma HourlyHistoryFields(start: int, effEnd: int, meter: real, h: seq<ChargingEntry>, tl: seq<int>, ws: seq<real>)
    requires FloorHour(start) <= FloorHour(effEnd) + HourSeconds || Abs(meter) <= 1.0
    requires tl == Timeline(start, effEnd) && ws == Reconciled(HourWhs(h, effEnd, tl), meter)
    ensures var r := HourlyHistory(start, effEnd, meter, h);
      && |r| == |tl| && Whs(r) == ws
      && forall k :: 0 <= k < |r| ==> r[k].timestamp == tl[k] && r[k].kwhTotal == Some(Sum(ws[..k + 1]))
  {
    var hh := WithWh(HourEntries(tl), ws);
    var r := HourlyHistory(start, effEnd, meter, h);
    assert r == WithTotals(hh, RunningTotals(ws));
    forall k | 0 <= k < |r|
      ensures r[k].timestamp == tl[k] && r[k].wh == ws[k] && r[k].kwhTotal == Some(Sum(ws[..k + 1]))
    {
      assert r[k] == hh[k].(kwhTotal := Some(RunningTotals(ws)[k]));
    }
    assert Whs(r) == ws;
  }

  // ---------------------------------------------------------------------------------------
  // The whole augmentation
  // ---------------------------------------------------------------------------------------

  /** What augment_1session needs to finish: a finished session (whose repaired end is after
      its start), an in-progress one whose hour list is not empty at `now`, or a meter that
      needs no correction of the (then empty) hour list. */
  predicate CanAugment(start: int, meter: real, end: Option<int>, now: int) {
    end.Some? || FloorHour(start) <= FloorHour(now) + HourSeconds || Abs(meter) <= 1.0
  }

  /** Outside CanAugment the source fails: the hour list is empty and the meter differs from
      its zero total by more than 1 Wh, so the correction writes to a first hour that does
      not exist. */
  lemma CannotAugmentMeansMissingFirstHour(start: int, meter: real, end: Option<int>, now: int)
    requires !CanAugment(start, meter, end, now)
    ensures Timeline(start, EffectiveEnd(RepairedEnd(start, end), now)) == []
    ensures Abs(Sum([]) - meter) > 1.0
  {
  }

  /** The session fields after augment_1session at time `now`: only the end time, the
      samples' energies and the hourly history change. */
  function AugmentedState(start: int, meter: real, st: SessionState, now: int): (r: SessionState)
    requires CanAugment(start, meter, st.endTime, now)
    ensures r.endTime == RepairedEnd(start, st.endTime) && r.hourlyHistory.Some?
    ensures |r.chargingHistory| == |st.chargingHistory|
    ensures forall i :: 0 <= i < |st.chargingHistory| ==>
      r.chargingHistory[i] == st.chargingHistory[i].(wh := r.chargingHistory[i].wh)
    ensures r.(endTime := st.endTime, chargingHistory := st.chargingHistory, hourlyHistory := st.hourlyHistory) == st
  {
    var end := RepairedEnd(start, st.endTime);
    var effEnd := EffectiveEnd(end, now);
    var h := AugmentedHistory(st.chargingHistory, effEnd, meter);
    st.(endTime := end, chargingHistory := h, hourlyHistory := Some(HourlyHistory(start, effEnd, meter, h)))
  }

  lemma {:induction false} HeldIgnoresWh(h: seq<ChargingEntry>, ws: seq<real>, n: nat)
    requires |ws| == |h| && n <= |h|
    ensures HeldAfter(WithWh(h, ws), n) == HeldAfter(h, n)
  {
    if n > 0 {
      HeldIgnoresWh(h, ws, n - 1);
    }
  }

  /** Interpolation reads only timestamps and currents, never the previous `wh` values. */
  lemma RawWhsIgnoreWh(h: seq<ChargingEntry>, ws: seq<real>, effEnd: int)
    requires |ws| == |h|
    ensures RawWhs(WithWh(h, ws), effEnd) == RawWhs(h, effEnd)
  {
    forall i | 0 <= i < |h|
      ensures RawWh(WithWh(h, ws), i, effEnd) == RawWh(h, i, effEnd)
    {
      HeldIgnoresWh(h, ws, i + 1);
    }
  }

  /** Augmenting an already augmented session changes nothing. */
  lemma AugmentIdempotent(start: int, meter: real, st: SessionState, now: int)
    requires CanAugment(start, meter, st.endTime, now)
    ensures AugmentedState(start, meter, AugmentedState(start, meter, st, now), now)
         == AugmentedState(start, meter, st, now)
  {
    var st1 := AugmentedState(start, meter, st, now);
    var end := RepairedEnd(start, st.endTime);
    var effEnd := EffectiveEnd(end, now);
    var ws := Rescaled(RawWhs(st.chargingHistory, effEnd), meter);
    RawWhsIgnoreWh(st.chargingHistory, ws, effEnd);
    assert WithWh(st1.chargingHistory, ws) == st1.chargingHistory;
  }

  /** The interpolation loop: each sample's raw energy from the held current over its
      interval, and the total of those energies. */
  lemma RawWhAt(h: seq<ChargingEntry>, effEnd: int, ci: nat, usage: Option<real>, seconds: int)
    requires ci < |h| && usage == HeldAfter(h, ci + 1) && seconds == IntervalSeconds(h, ci, effEnd)
    ensures RawWhs(h, effEnd)[ci] == usage.GetOr(0.0) * (seconds as real) / 3600.0
  {
  }

  method Interpolate(h: seq<ChargingEntry>, effEnd: int) returns (r: seq<ChargingEntry>, totalWh: real)
    ensures r == WithWh(h, RawWhs(h, effEnd))
    ensures totalWh == Sum(RawWhs(h, effEnd))
  {
    ghost var raw := RawWhs(h, effEnd);
    var n := |h|;
    r := h;
    var usage: Option<real> := None;
    totalWh := 0.0;
    var ci := 0;
    while ci < n
      invariant 0 <= ci <= n == |r|
      invariant usage == HeldAfter(h, ci)
      invariant totalWh == Sum(raw[..ci])
      invariant forall i :: 0 <= i < n ==> r[i] == if i < ci then h[i].(wh := raw[i]) else h[i]
    {
      var seconds := if ci == n - 1 then effEnd - r[ci].timestamp
                     else r[ci + 1].timestamp - r[ci].timestamp;
      if r[ci].usage.Some? {
        usage := r[ci].usage;
      } else if usage.None? && r[ci].offered.Some? {
        usage := r[ci].offered;
      }
      var wh := usage.GetOr(0.0) * (seconds as real) / 3600.0;
      assert usage == HeldAfter(h, ci + 1);
      assert seconds == IntervalSeconds(h, ci, effEnd);
      RawWhAt(h, effEnd, ci, usage, seconds);
      r := r[ci := r[ci].(wh := wh)];
      SumPrefixStep(raw, ci);
      totalWh := totalWh + wh;
      ci := ci + 1;
    }
    assert raw[..n] == raw;
  }

  /** The rescaling loop: when the energies total `totalWh` is non-zero, every sample but
      the last is multiplied by meter / totalWh. */
  method RescaleSamples(h: seq<ChargingEntry>, totalWh: real, meter: real) returns (r: seq<ChargingEntry>)
    requires totalWh == Sum(Whs(h))
    ensures r == WithWh(h, Rescaled(Whs(h), meter))
  {
    r := h;
    if totalWh != 0.0 {
      var factor := meter / totalWh;
      var ci := 0;
      while ci < |r| - 1
        invariant |r| == |h| && 0 <= ci && (0 < |h| ==> ci <= |h| - 1)
        invariant forall i :: 0 <= i < |h| ==>
          r[i] == h[i].(wh := if i < ci then h[i].wh * factor else h[i].wh)
      {
        r := r[ci := r[ci].(wh := r[ci].wh * factor)];
        ci := ci + 1;
      }
      assert h != [];
      ghost var scaled := ScaleAllButLast(Whs(h), factor);
      forall i | 0 <= i < |h|
        ensures r[i] == WithWh(h, scaled)[i]
      {
        if i < |h| - 1 {
          assert scaled[i] == h[i].wh * factor;
        }
      }
      assert r == WithWh(h, scaled);
    } else {
      WithWhWhs(h, Whs(h), Whs(h));
    }
  }

  /** The loop that lays out one fresh hourly entry per hour of the timeline. */
  method BuildHours(start: int, effEnd: int) returns (hours: seq<ChargingEntry>)
    ensures hours == HourEntries(Timeline(start, effEnd))
  {
    ghost var tl := Timeline(start, effEnd);
    var first := FloorHour(start);
    var last := FloorHour(effEnd) + HourSeconds;
    hours := [];
    var date := first;
    while date <= last
      invariant date == first + HourSeconds * |hours|
      invariant |hours| <= |tl|
      invariant forall k :: 0 <= k < |hours| ==> hours[k] == HourEntry(tl[k])
      decreases last - date
    {
      hours := hours + [HourEntry(date)];
      date := date + HourSeconds;
    }
  }

  /** The distribution loop: each sample's energy is spread over the hourly entries in
      proportion to the seconds of its interval inside each hour. */
  method DistributeSamples(h: seq<ChargingEntry>, effEnd: int, ghost tl: seq<int>, hours: seq<ChargingEntry>)
    returns (r: seq<ChargingEntry>)
    requires hours == HourEntries(tl)
    ensures r == WithWh(hours, HourWhs(h, effEnd, tl))
  {
    var n := |h|;
    r := hours;
    var ci := 0;
    while ci < n
      invariant 0 <= ci <= n
      invariant |r| == |tl|
      invariant forall k :: 0 <= k < |tl| ==> r[k] == HourEntry(tl[k]).(wh := Distributed(h, effEnd, tl, k, ci))
    {
      var start := h[ci].timestamp;
      var end := if ci == n - 1 then effEnd else h[ci + 1].timestamp;
      assert end == IntervalEnd(h, ci, effEnd);
      if start == end {
        ci := ci + 1;
        continue;
      }
      r := DistributeSample(h, effEnd, tl, ci, start, end, r);
      ci := ci + 1;
    }
  }

  /** The share of sample `ci` for hour pair `k`, as the distribution loop computes it. */
  lemma SampleShareAt(h: seq<ChargingEntry>, effEnd: int, tl: seq<int>, ci: nat, k: nat)
    requires ci < |h| && k < |tl| - 1 && h[ci].timestamp != IntervalEnd(h, ci, effEnd)
    ensures var s, e := h[ci].timestamp, IntervalEnd(h, ci, effEnd);
      var ov := Min(e, tl[k + 1]) - Max(s, tl[k]);
      SampleShare(h, effEnd, tl, ci, k) == if ov <= 0 then 0.0 else h[ci].wh * ((ov as real) / ((e - s) as real))
  {
  }

  /** The distribution invariant: hours before `hi` hold the first `ci + 1` samples, the
      others the first `ci`. */
  ghost predicate DistributedUpTo(h: seq<ChargingEntry>, effEnd: int, tl: seq<int>, ci: nat, hi: nat,
                                  r: seq<ChargingEntry>)
    requires ci < |h|
  {
    |r| == |tl| &&
    forall k :: 0 <= k < |tl| ==>
      r[k] == HourEntry(tl[k]).(wh := Distributed(h, effEnd, tl, k, if k < hi then ci + 1 else ci))
  }

  /** Hour pair `hi` gains the sample's share. */
  lemma DistributeStep(h: seq<ChargingEntry>, effEnd: int, tl: seq<int>, ci: nat, hi: nat,
                       r: seq<ChargingEntry>, share: real)
    requires ci < |h| && hi < |tl| && DistributedUpTo(h, effEnd, tl, ci, hi, r)
    requires share == SampleShare(h, effEnd, tl, ci, hi)
    ensures DistributedUpTo(h, effEnd, tl, ci, hi + 1, r[hi := r[hi].(wh := r[hi].wh + share)])
  {
  }

  /** Hour pair `hi` gets no share: nothing changes. */
  lemma DistributeSkip(h: seq<ChargingEntry>, effEnd: int, tl: seq<int>, ci: nat, hi: nat,
                       r: seq<ChargingEntry>)
    requires ci < |h| && hi < |tl| && DistributedUpTo(h, effEnd, tl, ci, hi, r)
    requires SampleShare(h, effEnd, tl, ci, hi) == 0.0
    ensures DistributedUpTo(h, effEnd, tl, ci, hi + 1, r)
  {
  }

  /** The inner loop for sample `ci` over [start, end): every hour pair gains the sample's
      share of that hour; the closing entry gains nothing. */
  method DistributeSample(h: seq<ChargingEntry>, effEnd: int, ghost tl: seq<int>, ci: nat, start: int, end: int,
                          hours: seq<ChargingEntry>) returns (r: seq<ChargingEntry>)
    requires ci < |h| && start == h[ci].timestamp && end == IntervalEnd(h, ci, effEnd) && start != end
    requires |hours| == |tl|
    requires forall k :: 0 <= k < |tl| ==> hours[k] == HourEntry(tl[k]).(wh := Distributed(h, effEnd, tl, k, ci))
    ensures |r| == |tl|
    ensures forall k :: 0 <= k < |tl| ==> r[k] == HourEntry(tl[k]).(wh := Distributed(h, effEnd, tl, k, ci + 1))
  {
    r := hours;
    var hi := 0;
    while hi < |r| - 1
      invariant 0 <= hi && (0 < |r| ==> hi <= |r| - 1)
      invariant DistributedUpTo(h, effEnd, tl, ci, hi, r)
    {
      var bstart := r[hi].timestamp;
      var bend := r[hi + 1].timestamp;
      assert bstart == tl[hi] && bend == tl[hi + 1];
      var overlap := Min(end, bend) - Max(start, bstart);
      SampleShareAt(h, effEnd, tl, ci, hi);
      if overlap <= 0 {
        DistributeSkip(h, effEnd, tl, ci, hi, r);
        hi := hi + 1;
        continue;
      }
      var contrib := h[ci].wh * ((overlap as real) / ((end - start) as real));
      DistributeStep(h, effEnd, tl, ci, hi, r, contrib);
      r := r[hi := r[hi].(wh := r[hi].wh + contrib)];
      hi := hi + 1;
    }
    if 0 < |r| {
      ClosingEntryGetsNothing(h, effEnd, tl, ci + 1);
    }
  }

  /** The check loop and the correction: a mismatch of more than 1 Wh between the hourly
      total and the meter is added to the first hour. */
  method ReconcileHours(hours: seq<ChargingEntry>, meter: real) returns (r: seq<ChargingEntry>)
    requires 0 < |hours| || Abs(Sum(Whs(hours)) - meter) <= 1.0
    ensures r == WithWh(hours, Reconciled(Whs(hours), meter))
  {
    ghost var ws := Whs(hours);
    var totalCheck := 0.0;
    var hi := 0;
    while hi < |hours|
      invariant 0 <= hi <= |hours|
      invariant totalCheck == Sum(ws[..hi])
    {
      SumPrefixStep(ws, hi);
      totalCheck := totalCheck + hours[hi].wh;
      hi := hi + 1;
    }
    assert ws[..|hours|] == ws;
    r := hours;
    if Abs(totalCheck - meter) > 1.0 {
      var diff := meter - totalCheck;
      r := r[0 := r[0].(wh := r[0].wh + diff)];
    } else {
      WithWhWhs(hours, ws, ws);
    }
  }

  /** The running-total loop. The source's `wh ?? 0 / 1000.0` parses as `wh ?? (0 / 1000.0)`,
      so the total accumulates Wh, not kWh. */
  method AddRunningTotals(hours: seq<ChargingEntry>) returns (r: seq<ChargingEntry>)
    ensures r == WithTotals(hours, RunningTotals(Whs(hours)))
  {
    ghost var ws := Whs(hours);
    ghost var totals := RunningTotals(ws);
    r := hours;
    var kwhTotal := 0.0;
    var hi := 0;
    while hi < |r|
      invariant 0 <= hi <= |r| == |hours|
      invariant kwhTotal == Sum(ws[..hi])
      invariant forall k :: 0 <= k < |hours| ==>
        r[k] == if k < hi then hours[k].(kwhTotal := Some(totals[k])) else hours[k]
    {
      SumPrefixStep(ws, hi);
      kwhTotal := kwhTotal + r[hi].wh;
      r := r[hi := r[hi].(kwhTotal := Some(kwhTotal))];
      hi := hi + 1;
    }
  }

  /** The final loop: the session's hourly history becomes a fresh list holding every entry
      of `hours` in order. */
  method AttachHourlyHistory(s: Session, hours: seq<ChargingEntry>)
    modifies s
    ensures s.State() == old(s.State()).(hourlyHistory := Some(hours))
  {
    s.hourlyHistory := Some([]);
    var hi := 0;
    while hi < |hours|
      invariant 0 <= hi <= |hours|
      invariant s.State() == old(s.State()).(hourlyHistory := Some(hours[..hi]))
    {
      s.hourlyHistory := Some(s.hourlyHistory.value + [hours[hi]]);
      assert hours[..hi + 1] == hours[..hi] + [hours[hi]];
      hi := hi + 1;
    }
    assert hours[..|hours|] == hours;
  }

  /** The sample loops: interpolation, then rescaling to the meter. */
  method SampleEnergies(h0: seq<ChargingEntry>, effEnd: int, meter: real) returns (h: seq<ChargingEntry>)
    ensures h == AugmentedHistory(h0, effEnd, meter)
  {
    ghost var raw := RawWhs(h0, effEnd);
    var totalWh;
    h, totalWh := Interpolate(h0, effEnd);
    WithWhWhs(h0, raw, Rescaled(raw, meter));
    h := RescaleSamples(h, totalWh, meter);
  }

  /** The hour loops: timeline, distribution, reconciliation and running totals. */
  method HourEntriesOf(start: int, effEnd: int, meter: real, h: seq<ChargingEntry>) returns (hours: seq<ChargingEntry>)
    requires FloorHour(start) <= FloorHour(effEnd) + HourSeconds || Abs(meter) <= 1.0
    ensures hours == HourlyHistory(start, effEnd, meter, h)
  {
    ghost var tl := Timeline(start, effEnd);
    ghost var dist := HourWhs(h, effEnd, tl);
    ghost var ws := Reconciled(dist, meter);
    hours := BuildHours(start, effEnd);
    hours := DistributeSamples(h, effEnd, tl, hours);
    WithWhWhs(HourEntries(tl), dist, ws);
    hours := ReconcileHours(hours, meter);
    assert hours == WithWh(HourEntries(tl), ws);
    WithWhWhs(HourEntries(tl), ws, ws);
    hours := AddRunningTotals(hours);
  }

  /** augment_1session: repairs the end time, interpolates and rescales the samples' energy,
      and attaches the reconciled hourly history. */
  method AugmentSession(s: Session, now: int)
    requires CanAugment(s.startTime, s.energyMeter, s.endTime, now)
    modifies s
    ensures s.State() == AugmentedState(s.startTime, s.energyMeter, old(s.State()), now)
  {
    ghost var st := s.State();
    if s.endTime.Some? && s.endTime.value <= s.startTime {
      s.endTime := Some(s.startTime + RepairSeconds);
    }
    assert s.endTime == RepairedEnd(s.startTime, st.endTime);
    CanAugmentHasHours(s.startTime, s.energyMeter, st.endTime, now);
    var h, hours := AugmentEnergies(s, EffectiveEnd(s.endTime, now));
    AugmentedStateIs(s.startTime, s.energyMeter, st, now, s.endTime, h, hours);
  }

  /** The energy part of augment_1session, once the end time is repaired. */
  method AugmentEnergies(s: Session, effEnd: int) returns (h: seq<ChargingEntry>, hours: seq<ChargingEntry>)
    requires FloorHour(s.startTime) <= FloorHour(effEnd) + HourSeconds || Abs(s.energyMeter) <= 1.0
    modifies s
    ensures h == AugmentedHistory(old(s.chargingHistory), effEnd, s.energyMeter)
    ensures hours == HourlyHistory(s.startTime, effEnd, s.energyMeter, h)
    ensures s.State() == old(s.State()).(chargingHistory := h, hourlyHistory := Some(hours))
  {
    h := SampleEnergies(s.chargingHistory, effEnd, s.energyMeter);
    s.chargingHistory := h;
    hours := HourEntriesOf(s.startTime, effEnd, s.energyMeter, h);
    AttachHourlyHistory(s, hours);
  }

  lemma CanAugmentHasHours(start: int, meter: real, end: Option<int>, now: int)
    requires CanAugment(start, meter, end, now)
    ensures FloorHour(start) <= FloorHour(EffectiveEnd(RepairedEnd(start, end), now)) + HourSeconds
      || Abs(meter) <= 1.0
  {
  }

  lemma AugmentedStateIs(start: int, meter: real, st: SessionState, now: int, end: Option<int>,
                         h: seq<ChargingEntry>, hours: seq<ChargingEntry>)
    requires CanAugment(start, meter, st.endTime, now) && end == RepairedEnd(start, st.endTime)
    requires h == AugmentedHistory(st.chargingHistory, EffectiveEnd(end, now), meter)
    requires FloorHour(start) <= FloorHour(EffectiveEnd(end, now)) + HourSeconds || Abs(meter) <= 1.0
    requires hours == HourlyHistory(start, EffectiveEnd(end, now), meter, h)
    ensures AugmentedState(start, meter, st, now)
      == st.(endTime := end, chargingHistory := h, hourlyHistory := Some(hours))
  {
  }

  lemma InPrefixStep<T>(xs: seq<T>, i: nat)
    requires i < |xs|
    ensures forall x :: x in xs[..i + 1] <==> x in xs[..i] || x == xs[i]
  {
    assert xs[..i + 1] == xs[..i] + [xs[i]];
  }

  /** augment_session_data: augments every session of the list in turn. A session listed twice
      ends as if augmented once. */
  method AugmentSessionData(sessions: seq<Session>, now: int)
    requires forall i :: 0 <= i < |sessions| ==>
      CanAugment(sessions[i].startTime, sessions[i].energyMeter, sessions[i].endTime, now)
    modifies sessions
    ensures forall i :: 0 <= i < |sessions| ==>
      sessions[i].State() == AugmentedState(sessions[i].startTime, sessions[i].energyMeter, old(sessions[i].State()), now)
  {
    var i := 0;
    while i < |sessions|
      invariant 0 <= i <= |sessions|
      invariant forall j :: 0 <= j < |sessions| ==>
        sessions[j].State() ==
          if sessions[j] in sessions[..i]
          then AugmentedState(sessions[j].startTime, sessions[j].energyMeter, old(sessions[j].State()), now)
          else old(sessions[j].State())
    {
      var s := sessions[i];
      if s in sessions[..i] {
        AugmentIdempotent(s.startTime, s.energyMeter, old(s.State()), now);
      }
      label Before:
      AugmentSession(s, now);
      InPrefixStep(sessions, i);
      forall j | 0 <= j < |sessions|
        ensures sessions[j].State() ==
          if sessions[j] in sessions[..i + 1]
          then AugmentedState(sessions[j].startTime, sessions[j].energyMeter, old(sessions[j].State()), now)
          else old(sessions[j].State())
      {
        if sessions[j] != s {
          assert sessions[j].State() == old@Before(sessions[j].State());
        }
      }
      i := i + 1;
    }
    assert sessions[..i] == sessions;
  }
}
