/**
 * The programme charts of the analytics API: the time range is split into
 * equal, contiguous, half-open buckets and the fetched programmes are
 * counted per bucket, by stage for the stage chart and by sector for the
 * sector chart.
 *
 * Times are integer milliseconds. The fetch of the programmes is outside
 * this model: the fetched list is a parameter.
 */
module AnalyticsApi {
  import opened Optional

  const Day: int := 86400000
  const Week: int := 604800000
  const Month: int := 2592000000   // thirty days

  /** The fixed range the charts are drawn over. */
  const ChartStart: int := 1672531200000
  const ChartEnd: int := 1703894400000

  /** `Math.ceil(a / b)` for a positive divisor, on exact integers. */
  function CeilDiv(a: int, b: int): (q: int)
    requires b > 0
    ensures (q - 1) * b < a <= q * b
  {
    -((-a) / b)
  }

  /** The bucket width and the number of buckets chosen for a span. */
  datatype Plan = Plan(width: int, count: int)

  /**
   * The bucket width is thirty days for a span over 31 days, a week for a
   * span over 7 days, a day for a span over one day; a shorter span gets
   * no bucket. The count is the span measured in that width, rounded up.
   */
  function BucketPlan(span: int): (r: Option<Plan>)
    ensures r.None? <==> span <= Day
    ensures r.Some? ==> (r.value.width == Month <==> span > 31 * Day)
    ensures r.Some? ==> (r.value.width == Week <==> 7 * Day < span <= 31 * Day)
    ensures r.Some? ==> (r.value.width == Day <==> span <= 7 * Day)
    ensures r.Some? ==> r.value.count >= 1 && (r.value.count - 1) * r.value.width < span <= r.value.count * r.value.width
  {
    var days := CeilDiv(span, Day);
    if days > 31 then Some(Plan(Month, CeilDiv(span, Month)))
    else if days > 7 then Some(Plan(Week, CeilDiv(span, Week)))
    else if days > 1 then Some(Plan(Day, CeilDiv(span, Day)))
    else None
  }

  /** Over the fixed chart range the buckets are thirty days wide and there are thirteen. */
  lemma ChartRangePlan()
    ensures BucketPlan(ChartEnd - ChartStart) == Some(Plan(Month, 13))
  {
  }

  function Width(start: int, end: int): int {
    var plan := BucketPlan(end - start);
    if plan.Some? then plan.value.width else 0
  }

  function BucketCount(start: int, end: int): nat {
    var plan := BucketPlan(end - start);
    if plan.Some? then plan.value.count else 0
  }

  /** Where bucket `k` starts: each bucket starts where the previous one ends. */
  function BucketStart(start: int, end: int, k: int): int {
    start + k * Width(start, end)
  }

  /** Bucket `k + 1` starts where bucket `k` ends. */
  lemma BucketsAreContiguous(start: int, end: int, k: int)
    ensures BucketStart(start, end, k + 1) == BucketStart(start, end, k) + Width(start, end)
  {
    var w := Width(start, end);
    assert (k + 1) * w == k * w + w;
  }

  /** A time lies in bucket `k` exactly when `k` is its distance from the start in whole widths. */
  lemma BucketMembership(start: int, width: int, k: nat, t: int)
    requires width > 0
    ensures start + k * width <= t < start + (k + 1) * width <==> t >= start && (t - start) / width == k
  {
    var d := t - start;
    if start + k * width <= t < start + (k + 1) * width {
      assert k * width <= d < k * width + width;
      DivisionPins(d, width, k);
    }
    if t >= start && d / width == k {
      assert d == (d / width) * width + d % width;
    }
  }

  lemma DivisionPins(d: int, width: int, k: nat)
    requires width > 0 && k * width <= d < k * width + width
    ensures d / width == k
  {
    var q, r := d / width, d % width;
    assert d == q * width + r && 0 <= r < width;
    var m := q - k;
    assert m * width == q * width - k * width;
    ProductSign(m, width);
  }

  lemma ProductSign(m: int, w: int)
    requires w > 0
    ensures m >= 1 ==> m * w >= w
    ensures m <= -1 ==> m * w <= -w
  {
    if m >= 1 {
      assert m * w == (m - 1) * w + w;
    } else if m <= -1 {
      assert m * w == (m + 1) * w - w;
    }
  }

  // ---------------------------------------------------------------------------
  // Counting

  /** A fetched programme, as far as the charts read it. */
  datatype Programme = Programme(programmeId: string, createdTime: int, currentStage: string, sector: string)

  /** The stage a programme is counted under: matched in this order, first match wins. */
  datatype Stage = AwaitingAuthorization | Issued | RejectedStage | Uncounted

  function StageOf(p: Programme): Stage {
    if p.currentStage == "AwaitingAuthorization" then AwaitingAuthorization
    else if p.currentStage == "Issued" then Issued
    else if p.currentStage == "Rejected" then RejectedStage
    else Uncounted
  }

  /** The sector names the sector chart counts, in the order of its series. */
  const Sectors: seq<string> := ["Energy", "Health", "Education", "Transport", "Manufacturing",
                                 "Hospitality", "Forestry", "Waste", "Agriculture", "Other"]

  /** Which programmes a counter counts. */
  datatype Filter = AnyProgramme | AtStage(stage: Stage) | InSector(sector: string)

  predicate Keeps(f: Filter, p: Programme) {
    match f
    case AnyProgramme => true
    case AtStage(s) => StageOf(p) == s
    case InSector(name) => p.sector == name
  }

  predicate InBucket(p: Programme, sTime: int, eTime: int) {
    sTime <= p.createdTime < eTime
  }

  /** The reference count: programmes created in `[sTime, eTime)` that `f` keeps. */
  function Tally(items: seq<Programme>, sTime: int, eTime: int, f: Filter): nat {
    if |items| == 0 then 0
    else
      var p := items[|items| - 1];
      Tally(items[..|items| - 1], sTime, eTime, f) + (if InBucket(p, sTime, eTime) && Keeps(f, p) then 1 else 0)
  }

  function SumOf(s: seq<nat>): nat {
    if |s| == 0 then 0 else SumOf(s[..|s| - 1]) + s[|s| - 1]
  }

  /** Counting over `[a, c)` is counting over `[a, b)` and then over `[b, c)`. */
  lemma {:induction false} TallySplit(items: seq<Programme>, a: int, b: int, c: int, f: Filter)
    requires a <= b <= c
    ensures Tally(items, a, c, f) == Tally(items, a, b, f) + Tally(items, b, c, f)
  {
    if |items| > 0 {
      TallySplit(items[..|items| - 1], a, b, c, f);
    }
  }

  /** No programme is counted twice: a count never exceeds the list, and is the whole list when every programme is in range. */
  lemma {:induction false} TallyBound(items: seq<Programme>, a: int, b: int)
    ensures Tally(items, a, b, AnyProgramme) <= |items|
    ensures (forall i :: 0 <= i < |items| ==> InBucket(items[i], a, b)) ==> Tally(items, a, b, AnyProgramme) == |items|
  {
    if |items| > 0 {
      var init := items[..|items| - 1];
      assert forall i :: 0 <= i < |init| ==> init[i] == items[i];
      TallyBound(init, a, b);
    }
  }

  /** An empty range counts nothing. */
  lemma {:induction false} TallyEmptyRange(items: seq<Programme>, a: int, f: Filter)
    ensures Tally(items, a, a, f) == 0
  {
    if |items| > 0 {
      TallyEmptyRange(items[..|items| - 1], a, f);
    }
  }

  /** Consecutive buckets together count what one bucket spanning them would. */
  lemma {:induction false} BucketsAddUp(items: seq<Programme>, start: int, width: int, series: seq<nat>)
    requires width > 0
    requires forall k :: 0 <= k < |series| ==> series[k] == Tally(items, start + k * width, start + (k + 1) * width, AnyProgramme)
    ensures SumOf(series) == Tally(items, start, start + |series| * width, AnyProgramme)
  {
    if |series| == 0 {
      TallyEmptyRange(items, start, AnyProgramme);
    } else {
      var n := |series| - 1;
      var init := series[..n];
      assert forall k :: 0 <= k < |init| ==> init[k] == series[k];
      BucketsAddUp(items, start, width, init);
      assert (n + 1) * width == n * width + width;
      assert 0 <= n * width by {
        ProductSign(n, width);
      }
      TallySplit(items, start, start + n * width, start + (n + 1) * width, AnyProgramme);
    }
  }

  /**
   * The programme series adds up to at most the number of programmes
   * fetched, and to exactly that number when every programme was created
   * within the charted range.
   */
  lemma ProgrammeTotal(items: seq<Programme>, start: int, end: int, series: seq<nat>)
    requires BucketPlan(end - start).Some? && |series| == BucketCount(start, end)
    requires forall k :: 0 <= k < |series| ==>
      series[k] == Tally(items, BucketStart(start, end, k), BucketStart(start, end, k + 1), AnyProgramme)
    ensures SumOf(series) <= |items|
    ensures (forall i :: 0 <= i < |items| ==> start <= items[i].createdTime < end) ==> SumOf(series) == |items|
  {
    var w := Width(start, end);
    forall k | 0 <= k < |series|
      ensures series[k] == Tally(items, start + k * w, start + (k + 1) * w, AnyProgramme)
    {
      assert BucketStart(start, end, k) == start + k * w;
      assert BucketStart(start, end, k + 1) == start + (k + 1) * w;
    }
    BucketsAddUp(items, start, w, series);
    var last := start + |series| * w;
    TallyBound(items, start, last);
    if forall i :: 0 <= i < |items| ==> start <= items[i].createdTime < end {
      assert end <= last;
      assert forall i :: 0 <= i < |items| ==> InBucket(items[i], start, last);
    }
  }

  // ---------------------------------------------------------------------------
  // Stage chart

  /** The four series of the stage chart, one entry per bucket. */
  datatype StageSeries = StageSeries(awaitingAuthorization: seq<nat>, issued: seq<nat>, rejected: seq<nat>, programmes: seq<nat>)

  datatype StageCounts = StageCounts(pending: nat, issued: nat, rejected: nat, programmes: nat)

  /** The inner loop of the stage chart: counts one bucket `[sTime, eTime)`. */
  method CountStageBucket(items: seq<Programme>, sTime: int, eTime: int) returns (c: StageCounts)
    ensures c.programmes == Tally(items, sTime, eTime, AnyProgramme)
    ensures c.pending == Tally(items, sTime, eTime, AtStage(AwaitingAuthorization))
    ensures c.issued == Tally(items, sTime, eTime, AtStage(Issued))
    ensures c.rejected == Tally(items, sTime, eTime, AtStage(RejectedStage))
    ensures c.pending + c.issued + c.rejected <= c.programmes
  {
    c := StageCounts(0, 0, 0, 0);
    var i := 0;
    while i < |items|
      invariant 0 <= i <= |items|
      invariant c.programmes == Tally(items[..i], sTime, eTime, AnyProgramme)
      invariant c.pending == Tally(items[..i], sTime, eTime, AtStage(AwaitingAuthorization))
      invariant c.issued == Tally(items[..i], sTime, eTime, AtStage(Issued))
      invariant c.rejected == Tally(items[..i], sTime, eTime, AtStage(RejectedStage))
      invariant c.pending + c.issued + c.rejected <= c.programmes
    {
      var p := items[i];
      if p.createdTime >= sTime && p.createdTime < eTime {
        c := c.(programmes := c.programmes + 1);
        if p.currentStage == "AwaitingAuthorization" {
          c := c.(pending := c.pending + 1);
        } else if p.currentStage == "Issued" {
          c := c.(issued := c.issued + 1);
        } else if p.currentStage == "Rejected" {
          c := c.(rejected := c.rejected + 1);
        }
      }
      assert items[..i + 1][..i] == items[..i];
      i := i + 1;
    }
    assert items[..i] == items;
  }

  /** Entry `k` of every stage series holds the counts of bucket `k`. */
  ghost predicate StageBucketsCounted(items: seq<Programme>, start: int, end: int, data: StageSeries) {
    && |data.awaitingAuthorization| == |data.issued| == |data.rejected| == |data.programmes|
    && forall k :: 0 <= k < |data.programmes| ==>
      var s, e := BucketStart(start, end, k), BucketStart(start, end, k + 1);
      && data.programmes[k] == Tally(items, s, e, AnyProgramme)
      && data.awaitingAuthorization[k] == Tally(items, s, e, AtStage(AwaitingAuthorization))
      && data.issued[k] == Tally(items, s, e, AtStage(Issued))
      && data.rejected[k] == Tally(items, s, e, AtStage(RejectedStage))
      && data.awaitingAuthorization[k] + data.issued[k] + data.rejected[k] <= data.programmes[k]
  }

  /** Appending the counts of the next bucket keeps every series in step with its buckets. */
  lemma PushStageCounts(items: seq<Programme>, start: int, end: int, data: StageSeries, c: StageCounts)
    requires StageBucketsCounted(items, start, end, data)
    requires var n := |data.programmes|;
      var s, e := BucketStart(start, end, n), BucketStart(start, end, n + 1);
      && c.programmes == Tally(items, s, e, AnyProgramme)
      && c.pending == Tally(items, s, e, AtStage(AwaitingAuthorization))
      && c.issued == Tally(items, s, e, AtStage(Issued))
      && c.rejected == Tally(items, s, e, AtStage(RejectedStage))
      && c.pending + c.issued + c.rejected <= c.programmes
    ensures StageBucketsCounted(items, start, end,
      StageSeries(data.awaitingAuthorization + [c.pending], data.issued + [c.issued],
                  data.rejected + [c.rejected], data.programmes + [c.programmes]))
  {
  }

  /**
   * The stage chart: for every bucket, the programmes created in it and
   * how many of those await authorisation, are issued, or are rejected.
   * An empty fetch leaves every series empty.
   */
  method StageChart(items: seq<Programme>, start: int, end: int) returns (data: StageSeries)
    ensures |items| == 0 ==> data == StageSeries([], [], [], [])
    ensures |items| > 0 ==> |data.programmes| == BucketCount(start, end)
    ensures end - start <= Day ==> data == StageSeries([], [], [], [])
    ensures |data.awaitingAuthorization| == |data.issued| == |data.rejected| == |data.programmes|
    ensures forall k :: 0 <= k < |data.programmes| ==>
      var s, e := BucketStart(start, end, k), BucketStart(start, end, k + 1);
      && data.programmes[k] == Tally(items, s, e, AnyProgramme)
      && data.awaitingAuthorization[k] == Tally(items, s, e, AtStage(AwaitingAuthorization))
      && data.issued[k] == Tally(items, s, e, AtStage(Issued))
      && data.rejected[k] == Tally(items, s, e, AtStage(RejectedStage))
      && data.awaitingAuthorization[k] + data.issued[k] + data.rejected[k] <= data.programmes[k]
    ensures SumOf(data.programmes) <= |items|
    ensures end - start > Day && (forall i :: 0 <= i < |items| ==> start <= items[i].createdTime < end) ==>
      SumOf(data.programmes) == |items|
  {
    data := StageSeries([], [], [], []);
    var plan := BucketPlan(end - start);
    if plan.None? {
      return;
    }
    var width, count := plan.value.width, plan.value.count;
    assert width == Width(start, end) && count == BucketCount(start, end);
    var sTime := start;
    var index := 1;
    while index <= count
      invariant 1 <= index <= count + 1
      invariant sTime == BucketStart(start, end, index - 1)
      invariant |items| == 0 ==> data == StageSeries([], [], [], [])
      invariant |items| > 0 ==> |data.programmes| == index - 1
      invariant StageBucketsCounted(items, start, end, data)
    {
      var eTime := sTime + width;
      BucketsAreContiguous(start, end, index - 1);
      var c := CountStageBucket(items, sTime, eTime);
      if |items| > 0 {
        PushStageCounts(items, start, end, data, c);
        data := StageSeries(data.awaitingAuthorization + [c.pending], data.issued + [c.issued],
                            data.rejected + [c.rejected], data.programmes + [c.programmes]);
      }
      sTime := eTime;
      index := index + 1;
    }
    if |items| > 0 {
      ProgrammeTotal(items, start, end, data.programmes);
    }
  }

  // ---------------------------------------------------------------------------
  // Sector chart

  /** The sector chart: one series per name in `Sectors`, in that order, and the programme series. */
  datatype SectorSeries = SectorSeries(bySector: seq<seq<nat>>, programmes: seq<nat>)

  datatype SectorCounts = SectorCounts(bySector: seq<nat>, programmes: nat)

  predicate Distinct(names: seq<string>) {
    forall i, j :: 0 <= i < j < |names| ==> names[i] != names[j]
  }

  /** One programme of sector `sector` seen: each counter whose name equals it goes up by one. */
  function Bump(counts: seq<nat>, names: seq<string>, sector: string): (r: seq<nat>)
    requires |counts| == |names|
    ensures |r| == |counts|
    ensures forall j :: 0 <= j < |r| ==> r[j] == counts[j] + if names[j] == sector then 1 else 0
  {
    seq(|counts|, j requires 0 <= j < |counts| => counts[j] + if names[j] == sector then 1 else 0)
  }

  /** With distinct names, one programme adds at most one to the sum of the counters. */
  lemma {:induction false} BumpSum(counts: seq<nat>, names: seq<string>, sector: string)
    requires |counts| == |names| && Distinct(names)
    ensures SumOf(Bump(counts, names, sector)) == SumOf(counts) + if sector in names then 1 else 0
  {
    if |counts| > 0 {
      var n := |counts| - 1;
      var r := Bump(counts, names, sector);
      assert r[..n] == Bump(counts[..n], names[..n], sector);
      BumpSum(counts[..n], names[..n], sector);
      assert names == names[..n] + [names[n]];
      assert sector in names[..n] ==> names[n] != sector;
    }
  }

  lemma {:induction false} SumOfZeros(n: nat)
    ensures SumOf(seq(n, j => 0)) == 0
  {
    if n > 0 {
      assert seq(n, j => 0)[..n - 1] == seq(n - 1, j => 0);
      SumOfZeros(n - 1);
    }
  }

  /** The inner loop of the sector chart: counts one bucket `[sTime, eTime)`. */
  method CountSectorBucket(items: seq<Programme>, sTime: int, eTime: int) returns (c: SectorCounts)
    ensures |c.bySector| == |Sectors|
    ensures c.programmes == Tally(items, sTime, eTime, AnyProgramme)
    ensures forall j :: 0 <= j < |Sectors| ==> c.bySector[j] == Tally(items, sTime, eTime, InSector(Sectors[j]))
    ensures SumOf(c.bySector) <= c.programmes
  {
    assert Distinct(Sectors);
    c := SectorCounts(seq(|Sectors|, j => 0), 0);
    SumOfZeros(|Sectors|);
    var i := 0;
    while i < |items|
      invariant 0 <= i <= |items|
      invariant |c.bySector| == |Sectors|
      invariant c.programmes == Tally(items[..i], sTime, eTime, AnyProgramme)
      invariant forall j :: 0 <= j < |Sectors| ==> c.bySector[j] == Tally(items[..i], sTime, eTime, InSector(Sectors[j]))
      invariant SumOf(c.bySector) <= c.programmes
    {
      var p := items[i];
      if p.createdTime >= sTime && p.createdTime < eTime {
        BumpSum(c.bySector, Sectors, p.sector);
        c := SectorCounts(Bump(c.bySector, Sectors, p.sector), c.programmes + 1);
      }
      assert items[..i + 1][..i] == items[..i];
      i := i + 1;
    }
    assert items[..i] == items;
  }

  /** The counters of bucket `k` across the sector series. */
  function Column(series: seq<seq<nat>>, k: nat): (r: seq<nat>)
    requires forall j :: 0 <= j < |series| ==> k < |series[j]|
    ensures |r| == |series| && forall j :: 0 <= j < |series| ==> r[j] == series[j][k]
  {
    seq(|series|, j requires 0 <= j < |series| && k < |series[j]| => series[j][k])
  }

  /** Entry `k` of every sector series holds the counts of bucket `k`. */
  ghost predicate SectorBucketsCounted(items: seq<Programme>, start: int, end: int, data: SectorSeries) {
    && |data.bySector| == |Sectors|
    && (forall j :: 0 <= j < |Sectors| ==> |data.bySector[j]| == |data.programmes|)
    && forall k :: 0 <= k < |data.programmes| ==> SectorBucketCounted(items, start, end, data, k)
  }

  ghost predicate SectorBucketCounted(items: seq<Programme>, start: int, end: int, data: SectorSeries, k: nat)
    requires |data.bySector| == |Sectors| && k < |data.programmes|
    requires forall j :: 0 <= j < |Sectors| ==> |data.bySector[j]| == |data.programmes|
  {
    && data.programmes[k] == Tally(items, BucketStart(start, end, k), BucketStart(start, end, k + 1), AnyProgramme)
    && (forall j :: 0 <= j < |Sectors| ==>
          data.bySector[j][k] == Tally(items, BucketStart(start, end, k), BucketStart(start, end, k + 1), InSector(Sectors[j])))
    && SumOf(Column(data.bySector, k)) <= data.programmes[k]
  }

  function PushSector(data: SectorSeries, c: SectorCounts): (r: SectorSeries)
    requires |data.bySector| == |c.bySector|
  {
    SectorSeries(seq(|data.bySector|, j requires 0 <= j < |data.bySector| => data.bySector[j] + [c.bySector[j]]),
                 data.programmes + [c.programmes])
  }

  /** Appending the counts of the next bucket keeps every series in step with its buckets. */
  lemma PushSectorCounts(items: seq<Programme>, start: int, end: int, data: SectorSeries, c: SectorCounts)
    requires SectorBucketsCounted(items, start, end, data)
    requires |c.bySector| == |Sectors|
    requires c.programmes == Tally(items, BucketStart(start, end, |data.programmes|),
                                   BucketStart(start, end, |data.programmes| + 1), AnyProgramme)
    requires forall j :: 0 <= j < |Sectors| ==>
      c.bySector[j] == Tally(items, BucketStart(start, end, |data.programmes|),
                             BucketStart(start, end, |data.programmes| + 1), InSector(Sectors[j]))
    requires SumOf(c.bySector) <= c.programmes
    ensures SectorBucketsCounted(items, start, end, PushSector(data, c))
  {
    var r := PushSector(data, c);
    var n := |data.programmes|;
    forall k | 0 <= k < |r.programmes|
      ensures SectorBucketCounted(items, start, end, r, k)
    {
      if k < n {
        assert SectorBucketCounted(items, start, end, data, k);
        assert Column(r.bySector, k) == Column(data.bySector, k);
      } else {
        assert Column(r.bySector, k) == c.bySector;
      }
    }
  }

  /** What `SectorBucketsCounted` says, bucket by bucket. */
  lemma UnfoldSectorBuckets(items: seq<Programme>, start: int, end: int, data: SectorSeries)
    requires SectorBucketsCounted(items, start, end, data)
    ensures forall k :: 0 <= k < |data.programmes| ==>
      data.programmes[k] == Tally(items, BucketStart(start, end, k), BucketStart(start, end, k + 1), AnyProgramme)
    ensures forall k, j :: 0 <= k < |data.programmes| && 0 <= j < |Sectors| ==>
      data.bySector[j][k] == Tally(items, BucketStart(start, end, k), BucketStart(start, end, k + 1), InSector(Sectors[j]))
    ensures forall k :: 0 <= k < |data.programmes| ==> SumOf(Column(data.bySector, k)) <= data.programmes[k]
  {
    forall k | 0 <= k < |data.programmes|
      ensures data.programmes[k] == Tally(items, BucketStart(start, end, k), BucketStart(start, end, k + 1), AnyProgramme)
      ensures forall j :: 0 <= j < |Sectors| ==>
        data.bySector[j][k] == Tally(items, BucketStart(start, end, k), BucketStart(start, end, k + 1), InSector(Sectors[j]))
      ensures SumOf(Column(data.bySector, k)) <= data.programmes[k]
    {
      assert SectorBucketCounted(items, start, end, data, k);
    }
    forall k, j | 0 <= k < |data.programmes| && 0 <= j < |Sectors|
      ensures data.bySector[j][k] == Tally(items, BucketStart(start, end, k), BucketStart(start, end, k + 1), InSector(Sectors[j]))
    {
      assert SectorBucketCounted(items, start, end, data, k);
    }
  }

  /** The outer loop of the sector chart, over `count` buckets of `width` from `start`. */
  method FillSectorChart(items: seq<Programme>, start: int, end: int) returns (data: SectorSeries)
    requires BucketPlan(end - start).Some?
    ensures SectorBucketsCounted(items, start, end, data)
    ensures |items| == 0 ==> data.programmes == [] && forall j :: 0 <= j < |Sectors| ==> data.bySector[j] == []
    ensures |items| > 0 ==> |data.programmes| == BucketCount(start, end)
  {
    data := SectorSeries(seq(|Sectors|, j => []), []);
    var width, count := Width(start, end), BucketCount(start, end);
    var sTime := start;
    var index := 1;
    while index <= count
      invariant 1 <= index <= count + 1
      invariant sTime == BucketStart(start, end, index - 1)
      invariant SectorBucketsCounted(items, start, end, data)
      invariant |items| == 0 ==> data.programmes == [] && forall j :: 0 <= j < |Sectors| ==> data.bySector[j] == []
      invariant |items| > 0 ==> |data.programmes| == index - 1
    {
      var eTime := sTime + width;
      BucketsAreContiguous(start, end, index - 1);
      var c := CountSectorBucket(items, sTime, eTime);
      if |items| > 0 {
        PushSectorCounts(items, start, end, data, c);
        data := PushSector(data, c);
      }
      sTime := eTime;
      index := index + 1;
    }
  }

  /**
   * The sector chart: for every bucket, the programmes created in it and
   * how many of those belong to each listed sector. An empty fetch leaves
   * every series empty.
   */
  method SectorChart(items: seq<Programme>, start: int, end: int) returns (data: SectorSeries)
    ensures |data.bySector| == |Sectors|
    ensures forall j :: 0 <= j < |Sectors| ==> |data.bySector[j]| == |data.programmes|
    ensures |items| == 0 || end - start <= Day ==> data.programmes == [] && forall j :: 0 <= j < |Sectors| ==> data.bySector[j] == []
    ensures |items| > 0 ==> |data.programmes| == BucketCount(start, end)
    ensures forall k :: 0 <= k < |data.programmes| ==>
      data.programmes[k] == Tally(items, BucketStart(start, end, k), BucketStart(start, end, k + 1), AnyProgramme)
    ensures forall k, j :: 0 <= k < |data.programmes| && 0 <= j < |Sectors| ==>
      data.bySector[j][k] == Tally(items, BucketStart(start, end, k), BucketStart(start, end, k + 1), InSector(Sectors[j]))
    ensures forall k :: 0 <= k < |data.programmes| ==> SumOf(Column(data.bySector, k)) <= data.programmes[k]
    ensures SumOf(data.programmes) <= |items|
    ensures end - start > Day && (forall i :: 0 <= i < |items| ==> start <= items[i].createdTime < end) ==>
      SumOf(data.programmes) == |items|
  {
    if BucketPlan(end - start).None? {
      data := SectorSeries(seq(|Sectors|, j => []), []);
      return;
    }
    data := FillSectorChart(items, start, end);
    UnfoldSectorBuckets(items, start, end, data);
    if |items| > 0 {
      ProgrammeTotal(items, start, end, data.programmes);
    }
  }
}
