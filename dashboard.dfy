/*
 * The dashboard (myreact-app/src/components/Dashboard.jsx): the checks made
 * before the pie and bar charts are requested, the total, colour and
 * percentage given to each pie slice, and the budget alert box.
 */
module Dashboard {
  import opened Wrappers
  import opened Calendar
  import opened Seqs
  import opened Aggregation
  import opened Alerts
  import opened Periods

  /** The ten slice colours, used in turn. */
  const Colors: seq<string> := ["#8884d8", "#82ca9d", "#ffc658", "#ff8042", "#8dd1e1",
                                "#d084d0", "#87d068", "#ffa726", "#ef5350", "#ab47bc"]

  /** The two ways of choosing the pie's period; any type other than "single" is a range. */
  datatype SearchType = Single | Range

  const NoDate: string := "Please select a date"

  /**
   * The checks of `fetchPieChartData`.  Dates come from date inputs: `None`
   * is the empty input.  A single date is sent as a one-day period; a range
   * goes through the shared range check.
   */
  function PieQuery(searchType: SearchType, selectedDate: Option<CivilDate>,
                    startDate: Option<CivilDate>, endDate: Option<CivilDate>): (q: PeriodCheck)
    ensures searchType == Single && selectedDate.None? ==> q == Invalid(NoDate)
    ensures searchType == Single && selectedDate.Some? ==> q == Period(selectedDate.value, selectedDate.value)
    ensures searchType == Range ==> q == RangeCheck(startDate, endDate)
  {
    match searchType
    case Single =>
      if selectedDate.None? then Invalid(NoDate) else Period(selectedDate.value, selectedDate.value)
    case Range => RangeCheck(startDate, endDate)
  }

  /** Every period the dashboard asks for is well ordered, whichever search type chose it. */
  lemma QueriedPeriodOrdered(searchType: SearchType, selectedDate: Option<CivilDate>,
                             startDate: Option<CivilDate>, endDate: Option<CivilDate>)
    ensures var q := PieQuery(searchType, selectedDate, startDate, endDate);
      q.Period? ==> DayKey(q.startDate) <= DayKey(q.endDate)
  {
    RangeCheckOrdered(startDate, endDate);
  }

  /** A pie slice as drawn: the server's slice with a colour and its share in percent. */
  datatype ColoredSlice = ColoredSlice(name: string, value: real, color: string, percentage: Option<real>)

  /**
   * `(value / total) * 100`.  When every slice is zero the total is zero and
   * the share is not a number; `None` stands for that.
   */
  function Share(value: real, total: real): (p: Option<real>)
    ensures p.None? <==> total == 0.0
    ensures p.Some? ==> p.value * total == value * 100.0
  {
    if total == 0.0 then None else Some(value / total * 100.0)
  }

  /** Sum of the shares of `cs`, zero where a share is not a number. */
  function ShareSum(cs: seq<ColoredSlice>): real
  {
    if cs == [] then 0.0 else cs[0].percentage.GetOr(0.0) + ShareSum(cs[1..])
  }

  /** The slices of the response, coloured in turn and given their share of `total`. */
  function Colored(data: seq<PieSlice>, total: real): (r: seq<ColoredSlice>)
    ensures |r| == |data|
    ensures forall i :: 0 <= i < |data| ==>
              r[i].name == data[i].name && r[i].value == data[i].value && r[i].color == Colors[i % 10]
    ensures forall i :: 0 <= i < |data| ==> r[i].percentage == Share(data[i].value, total)
  {
    seq(|data|, (i: int) requires 0 <= i < |data| =>
      ColoredSlice(data[i].name, data[i].value, Colors[i % 10], Share(data[i].value, total)))
  }

  /** The pie as the dashboard keeps it. */
  datatype PieState = PieState(error: string, pieData: seq<ColoredSlice>, totalAmount: real, fetched: bool)

  const PieFailed: string := "Failed to fetch expense data"

  /**
   * `fetchPieChartData` from state `st`: a failed check only sets its
   * message; a failed request empties the pie; otherwise an empty answer
   * gives an empty pie with total zero and a non-empty one the summed total
   * and the coloured slices.  `reply` is the server's answer to the query
   * (`None` when the request fails); it is not used when a check fails.
   */
  function FetchPie(st: PieState, q: PeriodCheck, reply: Option<seq<PieSlice>>): (r: PieState)
    ensures q.Invalid? ==> r == st.(error := q.message)
    ensures q.Period? && reply.None? ==> r == PieState(PieFailed, [], 0.0, st.fetched)
    ensures q.Period? && reply.Some? ==> r.error == "" && r.fetched && r.totalAmount == SumBy(reply.value, ValueOf)
    ensures q.Period? && reply.Some? ==> r.pieData == Colored(reply.value, r.totalAmount)
  {
    match q
    case Invalid(message) => st.(error := message)
    case Period(_, _) =>
      match reply
      case None => PieState(PieFailed, [], 0.0, st.fetched)
      case Some(data) =>
        if |data| == 0 then PieState("", [], 0.0, true)
        else
          var total := SumBy(data, ValueOf);
          PieState("", Colored(data, total), total, true)
  }

  lemma {:induction false} ShareAdds(a: real, b: real, total: real)
    requires total != 0.0
    ensures Share(a, total).value + Share(b, total).value == Share(a + b, total).value
  {
  }

  lemma {:induction false} ShareSumIsShareOfSum(data: seq<PieSlice>, total: real, from: nat)
    requires total != 0.0 && from <= |data|
    ensures ShareSum(Colored(data, total)[from..]) == Share(SumBy(data[from..], ValueOf), total).value
    decreases |data| - from
  {
    var cs := Colored(data, total);
    if from == |data| {
      assert cs[from..] == [];
      assert data[from..] == [];
    } else {
      ShareSumIsShareOfSum(data, total, from + 1);
      assert cs[from..][1..] == cs[from + 1..];
      assert data[from..][1..] == data[from + 1..];
      ShareAdds(data[from].value, SumBy(data[from + 1..], ValueOf), total);
    }
  }

  /**
   * The percentages of a fetched pie add up to 100 unless the total is zero,
   * in which case every share is not a number; the pie's total is the sum of
   * its slices' values.
   */
  lemma PieSharesAddUp(st: PieState, q: PeriodCheck, data: seq<PieSlice>)
    requires q.Period?
    ensures var r := FetchPie(st, q, Some(data));
      SumBy(r.pieData, SliceValue) == r.totalAmount &&
      (r.totalAmount != 0.0 ==> ShareSum(r.pieData) == 100.0) &&
      (r.totalAmount == 0.0 ==> forall i :: 0 <= i < |r.pieData| ==> r.pieData[i].percentage.None?)
  {
    var r := FetchPie(st, q, Some(data));
    if |data| > 0 {
      var total := SumBy(data, ValueOf);
      SlicesKeepValues(data, total, 0);
      assert data[0..] == data;
      assert r.pieData[0..] == r.pieData;
      if total != 0.0 {
        ShareSumIsShareOfSum(data, total, 0);
      }
    }
  }

  function SliceValue(c: ColoredSlice): real { c.value }

  lemma {:induction false} SlicesKeepValues(data: seq<PieSlice>, total: real, from: nat)
    requires from <= |data|
    ensures SumBy(Colored(data, total)[from..], SliceValue) == SumBy(data[from..], ValueOf)
    decreases |data| - from
  {
    var cs := Colored(data, total);
    if from == |data| {
      assert cs[from..] == [];
      assert data[from..] == [];
    } else {
      SlicesKeepValues(data, total, from + 1);
      assert cs[from..][1..] == cs[from + 1..];
      assert data[from..][1..] == data[from + 1..];
    }
  }

  /** Slices up to ten places apart never share a colour. */
  lemma NeighbourColorsDiffer(data: seq<PieSlice>, total: real, i: int, j: int)
    requires 0 <= i < j < |data| && j - i < 10
    ensures Colored(data, total)[i].color != Colored(data, total)[j].color
  {
    assert i % 10 != j % 10;
    ColorsDistinct(i % 10, j % 10);
  }

  lemma ColorsDistinct(a: int, b: int)
    requires 0 <= a < 10 && 0 <= b < 10 && a != b
    ensures Colors[a] != Colors[b]
  {
    assert Colors[a][1] != Colors[b][1] || Colors[a][2] != Colors[b][2] || Colors[a][3] != Colors[b][3];
  }

  /** `handleSearchTypeChange`: the pie is cleared and marked not fetched. */
  function ChangeSearchType(st: PieState): (r: PieState)
    ensures r.pieData == [] && r.totalAmount == 0.0 && !r.fetched && r.error == st.error
  {
    st.(pieData := [], totalAmount := 0.0, fetched := false)
  }

  /** The bar chart as the dashboard keeps it. */
  datatype BarState = BarState(error: string, barData: seq<MonthAmount>, fetched: bool)

  const NoYear: string := "Please enter a valid year"
  const BarFailed: string := "Failed to fetch monthly expense data"

  /**
   * `fetchBarChartData`: the year comes from `parseInt` on the year input
   * (`None` when it is not a number); a missing or zero year only sets the
   * error; a failed request empties the chart; an answer replaces it.
   */
  function FetchBar(st: BarState, selectedYear: Option<int>, reply: Option<seq<MonthAmount>>): (r: BarState)
    ensures selectedYear.None? || selectedYear == Some(0) ==> r == st.(error := NoYear)
    ensures selectedYear.Some? && selectedYear.value != 0 && reply.None? ==>
              r == BarState(BarFailed, [], st.fetched)
    ensures selectedYear.Some? && selectedYear.value != 0 && reply.Some? ==>
              r == BarState("", reply.value, true)
  {
    if selectedYear.None? || selectedYear.value == 0 then st.(error := NoYear)
    else match reply
      case None => BarState(BarFailed, [], st.fetched)
      case Some(data) => BarState("", data, true)
  }

  /**
   * The budget box of the dashboard.  Both numbers start as `null` and each
   * is set (missing as zero) only when its request succeeds, the budget
   * first; the box shows only when both are set, red when spending is over
   * half of the budget.
   */
  datatype DashboardAlert = Hidden | Red(budget: real, spent: real) | Green(budget: real, spent: real)

  function DashboardAlertFor(budget: Response, month: Response): (a: DashboardAlert)
    ensures a.Hidden? <==> budget.Failed? || month.Failed?
    ensures a.Red? <==> budget.Received? && month.Received? && OverHalf(OrZero(month.amount), OrZero(budget.amount))
    ensures !a.Hidden? ==> a.budget == OrZero(budget.amount) && a.spent == OrZero(month.amount)
  {
    if budget.Failed? || month.Failed? then Hidden
    else
      var b := OrZero(budget.amount);
      var s := OrZero(month.amount);
      if s > 0.5 * b then Red(b, s) else Green(b, s)
  }

  /**
   * The dashboard box turns red exactly when the alerts page, given the
   * same answers, shows its warning line.
   */
  lemma DashboardAgreesWithAlerts(identifier: Option<string>, today: Response, budget: Response,
                                  month: Response, now: CivilDate)
    requires LoggedIn(identifier) && today.Received? && budget.Received? && month.Received?
    ensures var v := AlertsView(identifier, today, budget, month, now);
      v.Content? && (DashboardAlertFor(budget, month).Red? <==> v.monthly.warning)
  {
    AlertsViewContent(identifier, today, budget, month, now);
  }
}
