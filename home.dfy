/*
 * The budget banner of the home page (myreact-app/src/components/Home.jsx):
 * after reading the budget record and the month's total it shows or hides
 * a 50 % alert.  The rule is the monthly rule of the alerts page.
 */
module Home {
  import opened Wrappers
  import opened Calendar
  import opened Alerts

  /**
   * `alertVisible` after `fetchMonthlyData`, starting from `visible`: without
   * an identifier nothing happens (so a visitor who is not logged in keeps
   * the initial hidden banner), a failed request leaves the flag as it
   * was, and otherwise the flag is set exactly when the month's spending is
   * over half of the budget, a missing number counting as zero.
   */
  function HomeAlertVisible(visible: bool, identifier: Option<string>, budget: Response, month: Response): (r: bool)
    ensures !LoggedIn(identifier) || budget.Failed? || month.Failed? ==> r == visible
    ensures LoggedIn(identifier) && budget.Received? && month.Received? ==>
              (r <==> OverHalf(OrZero(month.amount), OrZero(budget.amount)))
  {
    if !LoggedIn(identifier) || budget.Failed? || month.Failed? then visible
    else OrZero(month.amount) > 0.5 * OrZero(budget.amount)
  }

  /**
   * The home banner and the alerts page agree: for the same answers, the
   * banner is visible exactly when the alerts page shows its warning line.
   */
  lemma HomeAgreesWithAlerts(visible: bool, identifier: Option<string>, today: Response, budget: Response,
                             month: Response, now: CivilDate)
    requires LoggedIn(identifier) && today.Received? && budget.Received? && month.Received?
    ensures var v := AlertsView(identifier, today, budget, month, now);
      v.Content? && (HomeAlertVisible(visible, identifier, budget, month) <==> v.monthly.warning)
  {
    AlertsViewContent(identifier, today, budget, month, now);
  }
}
