/** The analytics chart: weekly and monthly entries fetched together, each
    mapped to chart points, a notice when both are empty, and the tooltip. */
module MoodChart {
  import opened Types
  import Api
  import Demo

  /** One plotted point. The x-axis label is the entry's creation time; its
      `MMM dd` rendering is not modelled. */
  datatype ChartPoint = ChartPoint(date: Timestamp, mood: int, energy: int, sleep: real)

  function ToPoint(e: MoodEntry): ChartPoint
  {
    ChartPoint(e.createdAt, e.mood, e.energy, e.sleep)
  }

  /** One point per entry, in the same order, with mood, energy and sleep
      carried over unchanged. */
  function ProcessChartData(data: seq<MoodEntry>): (points: seq<ChartPoint>)
    ensures |points| == |data|
    ensures forall i :: 0 <= i < |data| ==>
      points[i].date == data[i].createdAt && points[i].mood == data[i].mood &&
      points[i].energy == data[i].energy && points[i].sleep == data[i].sleep
  {
    if |data| == 0 then [] else [ToPoint(data[0])] + ProcessChartData(data[1..])
  }

  /** Mapping commutes with concatenation, so charting a longer history
      extends the chart of a shorter one. */
  lemma {:induction false} ProcessChartDataAppend(a: seq<MoodEntry>, b: seq<MoodEntry>)
    ensures ProcessChartData(a + b) == ProcessChartData(a) + ProcessChartData(b)
  {
    var l := ProcessChartData(a + b);
    var r := ProcessChartData(a) + ProcessChartData(b);
    assert |l| == |r|;
    forall i | 0 <= i < |l|
      ensures l[i] == r[i]
    {
      if i < |a| {
        assert (a + b)[i] == a[i];
      } else {
        assert (a + b)[i] == b[i - |a|];
      }
    }
  }

  datatype ChartState = ChartState(weekly: seq<MoodEntry>, monthly: seq<MoodEntry>, loading: bool)

  const InitialChart: ChartState := ChartState([], [], true)

  /** How the pair of requests settles under `Promise.all`: both responses,
      or a rejection of either one. */
  datatype PairSettled = BothResolved(weeklyResponse: ApiResponse<seq<MoodEntry>>,
                                      monthlyResponse: ApiResponse<seq<MoodEntry>>)
                       | EitherRejected

  /** Each list is replaced only by its own delivered response. */
  function FetchData(s: ChartState, settled: PairSettled): (s': ChartState)
    ensures !s'.loading
    ensures settled.BothResolved? && Delivered(Resolved(settled.weeklyResponse)) ==>
      s'.weekly == settled.weeklyResponse.data.value
    ensures settled.BothResolved? && Delivered(Resolved(settled.monthlyResponse)) ==>
      s'.monthly == settled.monthlyResponse.data.value
    ensures !(settled.BothResolved? && Delivered(Resolved(settled.weeklyResponse))) ==> s'.weekly == s.weekly
    ensures !(settled.BothResolved? && Delivered(Resolved(settled.monthlyResponse))) ==> s'.monthly == s.monthly
  {
    match settled
    case BothResolved(w, m) =>
      var weekly := if Delivered(Resolved(w)) then w.data.value else s.weekly;
      var monthly := if Delivered(Resolved(m)) then m.data.value else s.monthly;
      ChartState(weekly, monthly, false)
    case EitherRejected => s.(loading := false)
  }

  /** A failed weekly response does not disturb a delivered monthly one,
      and the other way round. */
  lemma FetchesIndependent(w: ApiResponse<seq<MoodEntry>>, m: ApiResponse<seq<MoodEntry>>,
                           w': ApiResponse<seq<MoodEntry>>, m': ApiResponse<seq<MoodEntry>>)
    ensures FetchData(InitialChart, BothResolved(w, m)).monthly == FetchData(InitialChart, BothResolved(w', m)).monthly
    ensures FetchData(InitialChart, BothResolved(w, m)).weekly == FetchData(InitialChart, BothResolved(w, m')).weekly
    ensures !w.success ==> FetchData(InitialChart, BothResolved(w, m)).weekly == []
  {
  }

  datatype ChartView = ChartSkeleton | Charts(weeklyPoints: seq<ChartPoint>, monthlyPoints: seq<ChartPoint>, noDataNotice: bool)

  function View(s: ChartState): (v: ChartView)
    ensures v.ChartSkeleton? <==> s.loading
    ensures v.Charts? ==> (v.noDataNotice <==> |s.weekly| == 0 && |s.monthly| == 0)
    ensures v.Charts? ==> |v.weeklyPoints| == |s.weekly| && |v.monthlyPoints| == |s.monthly|
    ensures v.Charts? ==> forall i :: 0 <= i < |s.weekly| ==> v.weeklyPoints[i] == ToPoint(s.weekly[i])
    ensures v.Charts? ==> forall i :: 0 <= i < |s.monthly| ==> v.monthlyPoints[i] == ToPoint(s.monthly[i])
  {
    if s.loading then ChartSkeleton
    else Charts(ProcessChartData(s.weekly), ProcessChartData(s.monthly), |s.weekly| == 0 && |s.monthly| == 0)
  }

  /** In demo mode both charts plot the fixtures, so the notice never shows. */
  lemma DemoChartHasData(loadedAt: Timestamp, o1: Api.FetchOutcome<seq<MoodEntry>>, o2: Api.FetchOutcome<seq<MoodEntry>>)
    ensures var s := FetchData(InitialChart, BothResolved(Api.GetWeeklyMoods(true, loadedAt, o1),
                                                        Api.GetMonthlyMoods(true, loadedAt, o2)));
      && View(s).Charts?
      && !View(s).noDataNotice
      && View(s).weeklyPoints == ProcessChartData(Demo.DemoMoods(loadedAt))
      && View(s).monthlyPoints == ProcessChartData(Demo.DemoMoods(loadedAt))
      && |View(s).weeklyPoints| == 3
  {
  }

  // ---- tooltip -----------------------------------------------------------------

  datatype PayloadItem = PayloadItem(dataKey: string, value: real)

  /** One tooltip line per payload item; an unknown key renders an empty line. */
  datatype TooltipLine = MoodLine(mood: real) | EnergyLine(energy: real) | SleepLine(hours: real) | BlankLine

  datatype TooltipBox = TooltipBox(caption: string, lines: seq<TooltipLine>)

  function LineFor(item: PayloadItem): TooltipLine
  {
    if item.dataKey == "mood" then MoodLine(item.value)
    else if item.dataKey == "energy" then EnergyLine(item.value)
    else if item.dataKey == "sleep" then SleepLine(item.value)
    else BlankLine
  }

  /** The tooltip draws a box only when active with a non-empty payload, one
      line per payload item in order; otherwise it renders nothing. */
  function Tooltip(active: bool, payload: Option<seq<PayloadItem>>, caption: string): (r: Option<TooltipBox>)
    ensures r.Some? <==> active && payload.Some? && |payload.value| > 0
    ensures r.Some? ==> r.value.caption == caption && |r.value.lines| == |payload.value|
    ensures r.Some? ==> forall i :: 0 <= i < |payload.value| ==>
      var item := payload.value[i];
      && (item.dataKey == "mood" ==> r.value.lines[i] == MoodLine(item.value))
      && (item.dataKey == "energy" ==> r.value.lines[i] == EnergyLine(item.value))
      && (item.dataKey == "sleep" ==> r.value.lines[i] == SleepLine(item.value))
      && (item.dataKey !in {"mood", "energy", "sleep"} ==> r.value.lines[i] == BlankLine)
  {
    if active && payload.Some? && |payload.value| > 0 then
      Some(TooltipBox(caption, seq(|payload.value|, i requires 0 <= i < |payload.value| => LineFor(payload.value[i]))))
    else None
  }
}
