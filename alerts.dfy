/*
 * The budget alert evaluator of the client: the "Alerts" page
 * (myreact-app/src/components/Alerts.jsx), whose rules the home page and
 * the dashboard repeat.  The page reads three server answers (today's
 * total, the budget record and the month's total), derives a daily budget
 * from the monthly one and the length of the current month, and shows a
 * three-way daily message and a 50 % monthly warning.
 */
module Alerts {
  import opened Wrappers
  import opened Calendar

  /**
   * One answer of the server as the page sees it: the request failed, or it
   * came back with a number that may be missing (`undefined`, `null`, `0`:
   * every falsy value the page replaces with `0`).
   */
  datatype Response = Failed | Received(amount: Option<real>)

  /** `x || 0` on a number that may be missing. */
  function OrZero(v: Option<real>): (r: real)
    ensures v.None? ==> r == 0.0
    ensures v.Some? ==> r == v.value
  {
    match v
    case None => 0.0
    case Some(x) => x
  }

  /** `!userIdentifier` is false: the stored identifier is present and not empty. */
  predicate LoggedIn(identifier: Option<string>)
  {
    identifier.Some? && identifier.value != ""
  }

  /**
   * The monthly rule shared by the three pages: spending is over half of the
   * monthly budget.  It is a strict comparison.
   */
  predicate OverHalf(spent: real, budget: real)
  {
    spent > 0.5 * budget
  }

  /** The daily budget: the monthly budget spread over the days of the current month. */
  function DailyBudget(monthlyBudget: real, now: CivilDate): (d: real)
    ensures d * DaysInMonth(now.year, now.month - 1) as real == monthlyBudget
    ensures monthlyBudget >= 0.0 ==> 0.0 <= d <= monthlyBudget
  {
    monthlyBudget / DaysInMonth(now.year, now.month - 1) as real
  }

  /** The three messages of "Today's Spending Alert". */
  datatype DailyMessage = OverDaily | ExactDaily | UnderDaily

  /**
   * `getMessage`: over, exactly on, or under the daily budget, tested in
   * that order.
   */
  function DailyMessageFor(spentToday: real, dailyBudget: real): (m: DailyMessage)
    ensures m == OverDaily <==> spentToday > dailyBudget
    ensures m == ExactDaily <==> spentToday == dailyBudget
    ensures m == UnderDaily <==> spentToday < dailyBudget
  {
    if spentToday > dailyBudget then OverDaily
    else if spentToday == dailyBudget then ExactDaily
    else UnderDaily
  }

  /**
   * The daily message judged against the whole month: today's spending is
   * over the daily budget exactly when spending that much every day of the
   * month would overrun the monthly budget, and likewise for "exact" and
   * "under".
   */
  lemma DailyMessageScalesToMonth(spentToday: real, monthlyBudget: real, now: CivilDate)
    ensures var days := DaysInMonth(now.year, now.month - 1) as real;
      var m := DailyMessageFor(spentToday, DailyBudget(monthlyBudget, now));
      (m == OverDaily <==> spentToday * days > monthlyBudget) &&
      (m == ExactDaily <==> spentToday * days == monthlyBudget) &&
      (m == UnderDaily <==> spentToday * days < monthlyBudget)
  {
    var days := DaysInMonth(now.year, now.month - 1) as real;
    var d := DailyBudget(monthlyBudget, now);
    assert d * days == monthlyBudget;
    assert days > 0.0;
    assert spentToday > d <==> spentToday * days > d * days;
    assert spentToday < d <==> spentToday * days < d * days;
  }

  /**
   * With no budget on record the daily budget is zero, so any spending today
   * shows the "over" message and a day without spending shows "exact".
   */
  lemma NoBudgetMeansOver(spentToday: real, now: CivilDate)
    ensures spentToday > 0.0 ==> DailyMessageFor(spentToday, DailyBudget(OrZero(None), now)) == OverDaily
    ensures spentToday == 0.0 ==> DailyMessageFor(spentToday, DailyBudget(OrZero(None), now)) == ExactDaily
  {
    assert DailyBudget(0.0, now) == 0.0;
  }

  /** What the "Budget Alert" box shows: the warning line or not, and the remaining amount. */
  datatype MonthlyAlert = MonthlyAlert(warning: bool, remaining: real)

  /**
   * `getMonthlyAlertMessage`: the warning appears over half of the budget;
   * the remaining amount is not clamped, so an overrun shows a negative
   * amount, and it is shown with and without the warning.
   */
  function MonthlyAlertFor(monthlyBudget: real, monthlySpent: real): (a: MonthlyAlert)
    ensures a.warning <==> OverHalf(monthlySpent, monthlyBudget)
    ensures a.remaining + monthlySpent == monthlyBudget
  {
    MonthlyAlert(monthlySpent > 0.5 * monthlyBudget, monthlyBudget - monthlySpent)
  }

  /**
   * The warning and the remaining amount agree: the warning shows exactly
   * when less than half of the budget remains, and a negative remainder
   * (an overrun of a non-negative budget) always comes with the warning.
   */
  lemma WarningIffLessThanHalfRemains(monthlyBudget: real, monthlySpent: real)
    ensures var a := MonthlyAlertFor(monthlyBudget, monthlySpent);
      a.warning <==> a.remaining < monthlyBudget / 2.0
    ensures var a := MonthlyAlertFor(monthlyBudget, monthlySpent);
      monthlyBudget >= 0.0 && a.remaining < 0.0 ==> a.warning
  {
  }

  /** What the two boxes of the page show once loading has finished. */
  datatype AlertsScreen =
    | ErrorScreen(message: string)
    | Content(spentToday: real, daily: DailyMessage, monthly: MonthlyAlert)

  const NotLoggedIn: string := "User not logged in"
  const FetchFailed: string := "Failed to fetch budget alerts data"

  /**
   * The page after its effect: without an identifier nothing is fetched and
   * both boxes show "User not logged in"; the three requests run in order and
   * the first failure shows the fetch error; otherwise every missing number
   * counts as zero.  The budget record's income is read but not shown, so it
   * is not a parameter.
   */
  function AlertsView(identifier: Option<string>, today: Response, budget: Response, month: Response,
                      now: CivilDate): (v: AlertsScreen)
    ensures !LoggedIn(identifier) ==> v == ErrorScreen(NotLoggedIn)
    ensures LoggedIn(identifier) && (today.Failed? || budget.Failed? || month.Failed?) ==> v == ErrorScreen(FetchFailed)
    ensures v.Content? ==> today.Received? && budget.Received? && month.Received?
  {
    if !LoggedIn(identifier) then ErrorScreen(NotLoggedIn)
    else if today.Failed? || budget.Failed? || month.Failed? then ErrorScreen(FetchFailed)
    else
      var spentToday := OrZero(today.amount);
      var monthlyBudget := OrZero(budget.amount);
      Content(spentToday,
              DailyMessageFor(spentToday, DailyBudget(monthlyBudget, now)),
              MonthlyAlertFor(monthlyBudget, OrZero(month.amount)))
  }

  /**
   * A logged-in user whose three requests succeed sees the content, with the
   * warning exactly when the month's spending is over half of the budget.
   */
  lemma AlertsViewContent(identifier: Option<string>, today: Response, budget: Response, month: Response,
                          now: CivilDate)
    requires LoggedIn(identifier) && today.Received? && budget.Received? && month.Received?
    ensures var v := AlertsView(identifier, today, budget, month, now);
      v.Content? && v.spentToday == OrZero(today.amount) &&
      (v.monthly.warning <==> OverHalf(OrZero(month.amount), OrZero(budget.amount))) &&
      v.monthly.remaining == OrZero(budget.amount) - OrZero(month.amount)
  {
  }
}
