/** The dashboard's hourly sales chart (src/components/dashboard/SalesChart.tsx):
    today's series with yesterday's laid beside it. */
module SalesChart {
  datatype HourRevenue = HourRevenue(hour: string, revenue: int)

  datatype ChartPoint = ChartPoint(hour: string, today: int, yesterday: int)

  /** `yesterdayData[index]?.revenue || 0`. */
  function YesterdayAt(yesterdayData: seq<HourRevenue>, i: nat): int
  {
    if i < |yesterdayData| then yesterdayData[i].revenue else 0
  }

  /** `combinedData`: one point per entry of today's series. */
  function CombinedData(todayData: seq<HourRevenue>, yesterdayData: seq<HourRevenue>): seq<ChartPoint>
  {
    seq(|todayData|, i requires 0 <= i < |todayData| =>
      ChartPoint(todayData[i].hour, todayData[i].revenue, YesterdayAt(yesterdayData, i)))
  }

  function Revenues(data: seq<HourRevenue>): seq<int>
  {
    seq(|data|, i requires 0 <= i < |data| => data[i].revenue)
  }

  function TodayColumn(points: seq<ChartPoint>): seq<int>
  {
    seq(|points|, i requires 0 <= i < |points| => points[i].today)
  }

  function YesterdayColumn(points: seq<ChartPoint>): seq<int>
  {
    seq(|points|, i requires 0 <= i < |points| => points[i].yesterday)
  }

  /** The chart has one point per hour of today, keeps today's hours and
      revenues as they were, and shows yesterday's revenue at the same
      position, or 0 past the end of yesterday's series. */
  lemma CombinedDataSpec(todayData: seq<HourRevenue>, yesterdayData: seq<HourRevenue>)
    ensures |CombinedData(todayData, yesterdayData)| == |todayData|
    ensures TodayColumn(CombinedData(todayData, yesterdayData)) == Revenues(todayData)
    ensures forall i :: 0 <= i < |todayData| ==> CombinedData(todayData, yesterdayData)[i].hour == todayData[i].hour
    ensures forall i :: 0 <= i < |todayData| && i < |yesterdayData| ==>
      YesterdayColumn(CombinedData(todayData, yesterdayData))[i] == yesterdayData[i].revenue
    ensures forall i :: |yesterdayData| <= i < |todayData| ==>
      YesterdayColumn(CombinedData(todayData, yesterdayData))[i] == 0
  {
  }

  /** Entries of yesterday's series past the length of today's play no
      part: only its first |todayData| entries matter. */
  lemma ExtraYesterdayIgnored(todayData: seq<HourRevenue>, yesterdayData: seq<HourRevenue>, extra: seq<HourRevenue>)
    requires |todayData| <= |yesterdayData|
    ensures CombinedData(todayData, yesterdayData + extra) == CombinedData(todayData, yesterdayData)
    ensures CombinedData(todayData, yesterdayData) == CombinedData(todayData, yesterdayData[..|todayData|])
  {
    var a := CombinedData(todayData, yesterdayData + extra);
    var b := CombinedData(todayData, yesterdayData);
    forall i | 0 <= i < |todayData| ensures a[i] == b[i] {
      assert (yesterdayData + extra)[i] == yesterdayData[i];
    }
  }
}
