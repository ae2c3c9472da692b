/**
 * The chart of mints and melts, and the flow between them (buildMintMeltTimeSeriesFromStats and
 * calculateLnChartSummary in internal/routes/admin/pages.go). Its amounts are int64s, where the charts of Stats have
 * uint64s.
 */
module LightningChart {
  import opened Prelude
  import opened Totals
  import opened Exact
  import opened Modular
  import opened Stats

  function Mints(): Selector
  {
    (s: Snapshot) => s.mint
  }

  function Melts(): Selector
  {
    (s: Snapshot) => s.melt
  }

  class MintMeltPoint {
    const timestamp: nat
    var mintAmount: int
    var meltAmount: int
    var mintCount: nat
    var meltCount: nat

    constructor (t: nat)
      ensures timestamp == t && mintAmount == 0 && meltAmount == 0 && mintCount == 0 && meltCount == 0
    {
      timestamp, mintAmount, meltAmount, mintCount, meltCount := t, 0, 0, 0, 0;
    }
  }

  datatype FlowPoint = FlowPoint(timestamp: nat, mintAmount: int, meltAmount: int, mintCount: nat, meltCount: nat)

  // ----- one side of the chart -----

  function MintSide(points: seq<FlowPoint>): seq<ChartPoint>
  {
    seq(|points|, i requires 0 <= i < |points| =>
      ChartPoint(points[i].timestamp, Wrap(points[i].mintAmount), points[i].mintCount))
  }

  function MeltSide(points: seq<FlowPoint>): seq<ChartPoint>
  {
    seq(|points|, i requires 0 <= i < |points| =>
      ChartPoint(points[i].timestamp, Wrap(points[i].meltAmount), points[i].meltCount))
  }

  ghost predicate IsInt64(x: int)
  {
    Signed64(x) == x
  }

  /** Read as uint64s, each side is a chart of its own summaries; the amounts are int64s. */
  ghost predicate IsFlowChart(points: seq<FlowPoint>, rows: seq<Snapshot>, bucketMinutes: int)
    requires ChartRows(Mints(), rows) && ChartRows(Melts(), rows)
  {
    && IsChart(MintSide(points), BarsOf(Mints(), rows), bucketMinutes)
    && IsChart(MeltSide(points), BarsOf(Melts(), rows), bucketMinutes)
    && forall p | p in points :: IsInt64(p.mintAmount) && IsInt64(p.meltAmount)
  }

  ghost predicate Distinguished(points: map<nat, MintMeltPoint>)
  {
    && (forall t | t in points :: points[t].timestamp == t)
    && (forall t, u | t in points && u in points && t != u :: points[t] != points[u])
  }

  /** What one side of the points holds: the bars' sums, on int64s and uint64s. */
  ghost predicate Holds(amount: int, count: nat, bars: seq<Bar>, bucketMinutes: int, t: nat)
  {
    amount == Signed64(AmountAt(bars, bucketMinutes, t)) && count == Wrap(CountAt(bars, bucketMinutes, t))
  }

  ghost predicate FlowBuckets(points: map<nat, MintMeltPoint>, mints: seq<Bar>, melts: seq<Bar>, bucketMinutes: int)
    reads points.Values
  {
    && (forall t | t in points ::
          && Holds(points[t].mintAmount, points[t].mintCount, mints, bucketMinutes, t)
          && Holds(points[t].meltAmount, points[t].meltCount, melts, bucketMinutes, t))
    && (forall t | t !in points :: Holds(0, 0, mints, bucketMinutes, t) && Holds(0, 0, melts, bucketMinutes, t))
    && (forall b | b in mints + melts :: Stamp(bucketMinutes)(b) in points)
  }

  // ----- the loop -----

  lemma HoldsOneMore(amount: int, count: nat, bars: seq<Bar>, bar: Bar, bucketMinutes: int, t: nat)
    requires Holds(amount, count, bars, bucketMinutes, t)
    ensures t == Stamp(bucketMinutes)(bar) ==>
      Holds(Signed64(amount + Signed64(bar.amount)), Wrap(count + Wrap(bar.count)), bars + [bar], bucketMinutes, t)
    ensures t != Stamp(bucketMinutes)(bar) ==> Holds(amount, count, bars + [bar], bucketMinutes, t)
  {
    hide Signed64, Wrap, BucketTimestamp, AmountAt, CountAt;
    OneMoreBar(bars, bar, bucketMinutes);
    SignedAdds(bar.amount, AmountAt(bars, bucketMinutes, t));
    AddedTwice(bar.count, CountAt(bars, bucketMinutes, t));
  }

  lemma SignedAdds(a: nat, b: nat)
    ensures Signed64(Signed64(b) + Signed64(a)) == Signed64(b + a)
  {
    SignedSum(a, b);
  }

  method AddFlow(
      points: map<nat, MintMeltPoint>, row: Snapshot, bucketMinutes: int, ghost mints: seq<Bar>, ghost melts: seq<Bar>)
    returns (updated: map<nat, MintMeltPoint>)
    requires Distinguished(points) && FlowBuckets(points, mints, melts, bucketMinutes)
    requires ChartRow(Mints(), row) && ChartRow(Melts(), row)
    modifies points.Values
    ensures Distinguished(updated)
    ensures FlowBuckets(updated, mints + [BarOf(Mints(), row)], melts + [BarOf(Melts(), row)], bucketMinutes)
    ensures forall t | t in updated :: (t in points && updated[t] == points[t]) || fresh(updated[t])
  {
    hide Holds, Signed64, Wrap, BucketTimestamp, SumOf;
    ghost var mint, melt := BarOf(Mints(), row), BarOf(Melts(), row);
    var bucketTs := BucketTimestamp(row.end, bucketMinutes);
    updated := points;
    if bucketTs !in points {
      var made := new MintMeltPoint(bucketTs);
      updated := points[bucketTs := made];
    }
    OthersHold(updated, bucketMinutes, mints, mint, melts, melt);
    AddToFlow(updated[bucketTs], row, bucketMinutes, mints, melts);
  }

  method AddToFlow(
      point: MintMeltPoint, row: Snapshot, bucketMinutes: int, ghost mints: seq<Bar>, ghost melts: seq<Bar>)
    requires ChartRow(Mints(), row) && ChartRow(Melts(), row)
    requires point.timestamp == BucketTimestamp(row.end, bucketMinutes)
    requires Holds(point.mintAmount, point.mintCount, mints, bucketMinutes, point.timestamp)
    requires Holds(point.meltAmount, point.meltCount, melts, bucketMinutes, point.timestamp)
    modifies point
    ensures Holds(point.mintAmount, point.mintCount, mints + [BarOf(Mints(), row)], bucketMinutes, point.timestamp)
    ensures Holds(point.meltAmount, point.meltCount, melts + [BarOf(Melts(), row)], bucketMinutes, point.timestamp)
  {
    hide Holds, Signed64, Wrap, BucketTimestamp, SumOf;
    HoldsOneMore(point.mintAmount, point.mintCount, mints, BarOf(Mints(), row), bucketMinutes, point.timestamp);
    HoldsOneMore(point.meltAmount, point.meltCount, melts, BarOf(Melts(), row), bucketMinutes, point.timestamp);
    var mintAmount, mintCount := SumStatsSummary(row.mint);
    var meltAmount, meltCount := SumStatsSummary(row.melt);
    point.mintAmount := Signed64(point.mintAmount + mintAmount);
    point.mintCount := Wrap(point.mintCount + mintCount);
    point.meltAmount := Signed64(point.meltAmount + meltAmount);
    point.meltCount := Wrap(point.meltCount + meltCount);
  }

  /** What the other buckets hold is not touched by one more pair of bars. */
  lemma OthersHold(
      points: map<nat, MintMeltPoint>, bucketMinutes: int, mints: seq<Bar>, mint: Bar, melts: seq<Bar>, melt: Bar)
    requires forall t | t in points ::
      && Holds(points[t].mintAmount, points[t].mintCount, mints, bucketMinutes, t)
      && Holds(points[t].meltAmount, points[t].meltCount, melts, bucketMinutes, t)
    requires forall t | t !in points :: Holds(0, 0, mints, bucketMinutes, t) && Holds(0, 0, melts, bucketMinutes, t)
    requires Stamp(bucketMinutes)(mint) in points && Stamp(bucketMinutes)(melt) == Stamp(bucketMinutes)(mint)
    ensures forall t | t in points && t != Stamp(bucketMinutes)(mint) ::
      && Holds(points[t].mintAmount, points[t].mintCount, mints + [mint], bucketMinutes, t)
      && Holds(points[t].meltAmount, points[t].meltCount, melts + [melt], bucketMinutes, t)
    ensures forall t | t !in points ::
      Holds(0, 0, mints + [mint], bucketMinutes, t) && Holds(0, 0, melts + [melt], bucketMinutes, t)
  {
    hide Holds, BucketTimestamp;
    forall t | t !in points
      ensures Holds(0, 0, mints + [mint], bucketMinutes, t) && Holds(0, 0, melts + [melt], bucketMinutes, t)
    {
      HoldsOneMore(0, 0, mints, mint, bucketMinutes, t);
      HoldsOneMore(0, 0, melts, melt, bucketMinutes, t);
    }
    forall t | t in points && t != Stamp(bucketMinutes)(mint)
      ensures Holds(points[t].mintAmount, points[t].mintCount, mints + [mint], bucketMinutes, t)
      ensures Holds(points[t].meltAmount, points[t].meltCount, melts + [melt], bucketMinutes, t)
    {
      HoldsOneMore(points[t].mintAmount, points[t].mintCount, mints, mint, bucketMinutes, t);
      HoldsOneMore(points[t].meltAmount, points[t].meltCount, melts, melt, bucketMinutes, t);
    }
  }

  // ----- sorting the timestamps -----

  ghost predicate Ascending(ts: seq<nat>)
  {
    forall i, j | 0 <= i < j < |ts| :: ts[i] < ts[j]
  }

  method PlaceTimestamp(ts: seq<nat>, t: nat) returns (sorted: seq<nat>)
    requires Ascending(ts) && t !in ts
    ensures Ascending(sorted) && forall x :: x in sorted <==> x in ts || x == t
  {
    var i := |ts|;
    while i > 0 && t < ts[i - 1]
      invariant 0 <= i <= |ts| && forall k | i <= k < |ts| :: t < ts[k]
    {
      i := i - 1;
    }
    sorted := ts[..i] + [t] + ts[i..];
    InsertedMembers(ts, i, t);
  }

  method SortedKeys(keys: set<nat>) returns (ts: seq<nat>)
    ensures Ascending(ts) && forall t :: t in ts <==> t in keys
  {
    ts := [];
    var ahead := keys;
    while ahead != {}
      invariant ahead <= keys && Ascending(ts) && forall t :: t in ts <==> t in keys - ahead
      decreases ahead
    {
      var t :| t in ahead;
      ahead := ahead - {t};
      ts := PlaceTimestamp(ts, t);
    }
  }

  ghost predicate Copied(p: FlowPoint, points: map<nat, MintMeltPoint>)
    reads points.Values
  {
    p.timestamp in points && var q := points[p.timestamp];
      p == FlowPoint(p.timestamp, q.mintAmount, q.meltAmount, q.mintCount, q.meltCount)
  }

  method CopyPoints(points: map<nat, MintMeltPoint>, timestamps: seq<nat>) returns (result: seq<FlowPoint>)
    requires forall t | t in timestamps :: t in points
    ensures |result| == |timestamps|
    ensures forall i | 0 <= i < |result| :: result[i].timestamp == timestamps[i] && Copied(result[i], points)
  {
    result := [];
    for i := 0 to |timestamps|
      invariant |result| == i
      invariant forall k | 0 <= k < i :: result[k].timestamp == timestamps[k] && Copied(result[k], points)
    {
      var t := timestamps[i];
      assert t in timestamps;
      var p := points[t];
      result := result + [FlowPoint(t, p.mintAmount, p.meltAmount, p.mintCount, p.meltCount)];
    }
  }

  lemma SignedIsInt64(a: nat)
    ensures IsInt64(Signed64(a)) && Wrap(Signed64(a)) == Wrap(a)
  {
    SameRemainder(a);
  }

  lemma OneSide(
      side: seq<ChartPoint>, timestamps: seq<nat>, bars: seq<Bar>, bucketMinutes: int)
    requires |side| == |timestamps| && Ascending(timestamps)
    requires forall i | 0 <= i < |side| ::
      && side[i].timestamp == timestamps[i] && side[i].totalAmount == Wrap(AmountAt(bars, bucketMinutes, timestamps[i]))
      && side[i].count == Wrap(CountAt(bars, bucketMinutes, timestamps[i]))
    requires forall b | b in bars :: Stamp(bucketMinutes)(b) in timestamps
    ensures IsChart(side, bars, bucketMinutes)
  {
    hide AmountAt, CountAt, Wrap, BucketTimestamp;
    forall b | b in bars ensures exists p :: p in side && p.timestamp == Stamp(bucketMinutes)(b) {
      var i :| 0 <= i < |timestamps| && timestamps[i] == Stamp(bucketMinutes)(b);
      assert side[i] in side;
    }
  }

  lemma BothSides(
      result: seq<FlowPoint>, timestamps: seq<nat>, mints: seq<Bar>, melts: seq<Bar>, bucketMinutes: int)
    requires |result| == |timestamps| && Ascending(timestamps)
    requires forall i | 0 <= i < |result| ::
      && result[i].timestamp == timestamps[i]
      && Holds(result[i].mintAmount, result[i].mintCount, mints, bucketMinutes, timestamps[i])
      && Holds(result[i].meltAmount, result[i].meltCount, melts, bucketMinutes, timestamps[i])
    requires forall b | b in mints + melts :: Stamp(bucketMinutes)(b) in timestamps
    ensures IsChart(MintSide(result), mints, bucketMinutes) && IsChart(MeltSide(result), melts, bucketMinutes)
    ensures forall p | p in result :: IsInt64(p.mintAmount) && IsInt64(p.meltAmount)
  {
    hide AmountAt, CountAt, Wrap, Signed64, BucketTimestamp, IsChart, IsInt64;
    forall i | 0 <= i < |result|
      ensures Wrap(result[i].mintAmount) == Wrap(AmountAt(mints, bucketMinutes, timestamps[i]))
      ensures Wrap(result[i].meltAmount) == Wrap(AmountAt(melts, bucketMinutes, timestamps[i]))
      ensures IsInt64(result[i].mintAmount) && IsInt64(result[i].meltAmount)
    {
      SignedIsInt64(AmountAt(mints, bucketMinutes, timestamps[i]));
      SignedIsInt64(AmountAt(melts, bucketMinutes, timestamps[i]));
    }
    OneSide(MintSide(result), timestamps, mints, bucketMinutes);
    OneSide(MeltSide(result), timestamps, melts, bucketMinutes);
  }

  /** buildMintMeltTimeSeriesFromStats. */
  method BuildMintMeltTimeSeries(rows: seq<Snapshot>, bucketMinutes: int) returns (result: seq<FlowPoint>)
    requires ChartRows(Mints(), rows) && ChartRows(Melts(), rows)
    ensures IsFlowChart(result, rows, bucketMinutes)
  {
    hide IsChart, ChartRow, Holds, IsInt64, BucketTimestamp;
    ghost var mints, melts := BarsOf(Mints(), rows), BarsOf(Melts(), rows);
    var points: map<nat, MintMeltPoint> := map[];
    NoFlow(bucketMinutes);
    assert mints[..0] == [] && melts[..0] == [];
    for i := 0 to |rows|
      invariant Distinguished(points) && FlowBuckets(points, mints[..i], melts[..i], bucketMinutes)
      invariant forall t | t in points :: fresh(points[t])
    {
      points := AddFlow(points, rows[i], bucketMinutes, mints[..i], melts[..i]);
      assert mints[..i + 1] == mints[..i] + [BarOf(Mints(), rows[i])];
      assert melts[..i + 1] == melts[..i] + [BarOf(Melts(), rows[i])];
    }
    assert mints[..|mints|] == mints && melts[..|melts|] == melts;
    var timestamps := SortedKeys(points.Keys);
    result := CopyPoints(points, timestamps);
    BothSides(result, timestamps, mints, melts, bucketMinutes);
  }

  lemma NoFlow(bucketMinutes: int)
    ensures forall t :: Holds(0, 0, [], bucketMinutes, t)
  {
    WrapOfZero();
  }

  // ----- the summary over the chart -----

  lemma SignedTotal(x: int, sum: nat)
    requires IsInt64(x)
    ensures Signed64(Signed64(sum) + x) == Signed64(sum + Wrap(x))
  {
    SignedSum(Wrap(x), sum);
  }

  lemma SidesSnoc(points: seq<FlowPoint>, i: nat)
    requires i < |points|
    ensures MintSide(points[..i + 1]) == MintSide(points[..i]) + [MintSide(points)[i]]
    ensures MeltSide(points[..i + 1]) == MeltSide(points[..i]) + [MeltSide(points)[i]]
  {
  }

  /** calculateLnChartSummary, on int64s. */
  method CalculateLnChartSummary(points: seq<FlowPoint>) returns (totalMint: int, totalMelt: int, netFlow: int)
    requires forall p | p in points :: IsInt64(p.mintAmount) && IsInt64(p.meltAmount)
    ensures totalMint == Signed64(SumOf(TotalOfPoint(), MintSide(points)))
    ensures totalMelt == Signed64(SumOf(TotalOfPoint(), MeltSide(points)))
    ensures netFlow == Signed64(totalMint - totalMelt)
  {
    hide Signed64, Wrap, IsInt64;
    totalMint, totalMelt := 0, 0;
    SignedZero();
    for i := 0 to |points|
      invariant totalMint == Signed64(SumOf(TotalOfPoint(), MintSide(points[..i])))
      invariant totalMelt == Signed64(SumOf(TotalOfPoint(), MeltSide(points[..i])))
    {
      SidesSnoc(points, i);
      SumOfSnoc(TotalOfPoint(), MintSide(points[..i]), MintSide(points)[i]);
      SumOfSnoc(TotalOfPoint(), MeltSide(points[..i]), MeltSide(points)[i]);
      assert points[i] in points;
      SignedTotal(points[i].mintAmount, SumOf(TotalOfPoint(), MintSide(points[..i])));
      SignedTotal(points[i].meltAmount, SumOf(TotalOfPoint(), MeltSide(points[..i])));
      totalMint := Signed64(totalMint + points[i].mintAmount);
      totalMelt := Signed64(totalMelt + points[i].meltAmount);
    }
    assert points[..|points|] == points;
    netFlow := Signed64(totalMint - totalMelt);
  }

  lemma SignedZero()
    ensures Signed64(0) == 0
  {
  }

  lemma SameSigned(a: nat, b: nat)
    requires Wrap(a) == Wrap(b)
    ensures Signed64(a) == Signed64(b)
  {
  }

  lemma SignedDifference(a: nat, b: nat)
    ensures Signed64(Signed64(a) - Signed64(b)) == Signed64(a - b)
  {
    SameRemainder(a);
    SameRemainder(b);
    WrapOfDifference(a, b);
    WrapOfDifference(Signed64(a), Signed64(b));
    hide Wrap;
  }

  lemma WrapOfDifference(a: int, b: int)
    ensures Wrap(Wrap(a) - Wrap(b)) == Wrap(a - b)
  {
  }

  lemma ExactIff(x: int)
    ensures Signed64(x) == x <==> x < TWO_63 && -x <= TWO_63
  {
  }

  /** What the snapshots' summaries of one side add up to. */
  ghost function Flow(select: Selector, rows: seq<Snapshot>): nat
    requires ChartRows(select, rows)
  {
    SumOf(AmountOfBar(), BarsOf(select, rows))
  }

  lemma SideTotal(side: seq<ChartPoint>, rows: seq<Snapshot>, select: Selector, bucketMinutes: int)
    requires ChartRows(select, rows) && IsChart(side, BarsOf(select, rows), bucketMinutes)
    ensures Signed64(SumOf(TotalOfPoint(), side)) == Signed64(Flow(select, rows))
  {
    hide SumOf, IsChart, Signed64;
    ChartKeepsTheTotals(side, BarsOf(select, rows), bucketMinutes);
    SameSigned(SumOf(TotalOfPoint(), side), SumOf(AmountOfBar(), BarsOf(select, rows)));
  }

  /**
   * Whatever the buckets, the summary over the chart is that of the snapshots behind it; and the net flow is the true
   * difference exactly when that fits an int64, even where a total does not.
   */
  method ChartAndFlow(rows: seq<Snapshot>, bucketMinutes: int)
    returns (points: seq<FlowPoint>, totalMint: int, totalMelt: int, netFlow: int)
    requires ChartRows(Mints(), rows) && ChartRows(Melts(), rows)
    ensures IsFlowChart(points, rows, bucketMinutes)
    ensures var minted, melted := Flow(Mints(), rows), Flow(Melts(), rows);
      && totalMint == Signed64(minted) && totalMelt == Signed64(melted)
      && (netFlow == minted - melted <==> minted - melted < TWO_63 && melted - minted <= TWO_63)
  {
    hide IsChart, SumOf, Signed64, ChartRow, Flow;
    points := BuildMintMeltTimeSeries(rows, bucketMinutes);
    SideTotal(MintSide(points), rows, Mints(), bucketMinutes);
    SideTotal(MeltSide(points), rows, Melts(), bucketMinutes);
    totalMint, totalMelt, netFlow := CalculateLnChartSummary(points);
    SignedDifference(Flow(Mints(), rows), Flow(Melts(), rows));
    ExactIff(Flow(Mints(), rows) - Flow(Melts(), rows));
  }
}
