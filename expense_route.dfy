/**
 * The expense route of backend/routes/expenses.js: it stores the expense
 * under the identifier as given, then recomputes the profile's financial
 * figures from all of that identifier's expenses and runs the badge rules
 * before saving the profile.
 */
module ExpenseRoute {
  import opened Wrappers
  import opened Calendar
  import opened Seqs
  import opened Records
  import opened Aggregation
  import opened Badges
  import opened Ledger

  /** `monthlySpent`, `totalSaved` and `savingsRate` as the route derives them; the savings goal is kept. */
  function Financials(previous: FinancialData, spent: real, monthlyIncome: real): (fd: FinancialData)
    ensures fd.monthlySpent == spent && fd.savingsGoal == previous.savingsGoal
    ensures fd.totalSaved + fd.monthlySpent == monthlyIncome
    ensures monthlyIncome <= 0.0 ==> fd.savingsRate == 0.0
    ensures monthlyIncome > 0.0 ==> fd.savingsRate * monthlyIncome == 100.0 * fd.totalSaved
  {
    var totalSaved := monthlyIncome - spent;
    FinancialData(totalSaved, previous.savingsGoal, spent,
                  if monthlyIncome > 0.0 then totalSaved / monthlyIncome * 100.0 else 0.0)
  }

  /** With a positive income and no negative spending the savings rate is at most 100 %. */
  lemma SavingsRateAtMost100(previous: FinancialData, spent: real, monthlyIncome: real)
    requires monthlyIncome > 0.0 && spent >= 0.0
    ensures Financials(previous, spent, monthlyIncome).savingsRate <= 100.0
  {
    var fd := Financials(previous, spent, monthlyIncome);
    assert fd.savingsRate * monthlyIncome <= 100.0 * monthlyIncome;
  }

  /** Savings Champion is earned exactly when at most 40 % of a positive income is spent. */
  lemma ChampionIffSpendingAtMost40Percent(previous: FinancialData, spent: real, monthlyIncome: real)
    requires monthlyIncome > 0.0
    ensures ChampionRate(Financials(previous, spent, monthlyIncome).savingsRate) <==> spent * 10.0 <= monthlyIncome * 4.0
  {
    var fd := Financials(previous, spent, monthlyIncome);
    if fd.savingsRate >= 60.0 {
      assert fd.savingsRate * monthlyIncome >= 60.0 * monthlyIncome;
    } else {
      assert fd.savingsRate * monthlyIncome < 60.0 * monthlyIncome;
    }
  }

  /** Budget Master is earned exactly when nothing is left unsaved: `totalSaved >= 0`. */
  lemma BudgetMasterIffNoOverspend(previous: FinancialData, spent: real, monthlyIncome: real)
    ensures WithinIncome(spent, monthlyIncome) <==> Financials(previous, spent, monthlyIncome).totalSaved >= 0.0
  {
  }

  /** The profile the route tries to save: new figures, then the badge rules on them. */
  function Reevaluated(p: Profile, spent: real): (q: Profile)
    ensures q == p.(financialData := q.financialData, achievements := q.achievements)
    ensures q.financialData == Financials(p.financialData, spent, p.monthlyIncome)
    ensures q.achievements == CheckAndAward(p.achievements, q.financialData, p.monthlyIncome, p.annualSavingsAmount)
    ensures Grows(p.achievements, q.achievements)
  {
    var fd := Financials(p.financialData, spent, p.monthlyIncome);
    p.(financialData := fd, achievements := CheckAndAward(p.achievements, fd, p.monthlyIncome, p.annualSavingsAmount))
  }

  /**
   * When a rule awards a title the profile has no badge for, the badge it
   * creates lacks the catalog fields, so the profile can no longer be saved.
   */
  lemma CreatedBadgeBlocksSave(p: Profile, spent: real, t: string)
    requires FindTitle(p.achievements, t).None?
    requires (t == GoalAchiever && GoalReached(Financials(p.financialData, spent, p.monthlyIncome).totalSaved, p.annualSavingsAmount))
             || (t == SavingsChampion && ChampionRate(Financials(p.financialData, spent, p.monthlyIncome).savingsRate))
             || (t == BudgetMaster && WithinIncome(spent, p.monthlyIncome))
    ensures !SavableProfile(Reevaluated(p, spent))
  {
    var q := Reevaluated(p, spent);
    CheckAndAwardEarns(p.achievements, q.financialData, p.monthlyIncome, p.annualSavingsAmount, t);
    var i :| 0 <= i < |q.achievements| && q.achievements[i].title == t && q.achievements[i].earned;
    assert i >= |p.achievements|;
    CreatedBadgesAreBare(p.achievements, q.financialData, p.monthlyIncome, p.annualSavingsAmount, i);
  }

  /** Every badge the rules append is one `awardBadge` created from a bare title. */
  lemma CreatedBadgesAreBare(bs: seq<Badge>, fd: FinancialData, monthlyIncome: real, annualSavingsAmount: real, i: int)
    requires |bs| <= i < |CheckAndAward(bs, fd, monthlyIncome, annualSavingsAmount)|
    ensures CheckAndAward(bs, fd, monthlyIncome, annualSavingsAmount)[i].id.None?
  {
    var b1 := if GoalReached(fd.totalSaved, annualSavingsAmount) then Award(bs, GoalAchiever) else bs;
    var b2 := if ChampionRate(fd.savingsRate) then Award(b1, SavingsChampion) else b1;
    AwardAppendsBare(bs, GoalAchiever);
    AwardAppendsBare(b1, SavingsChampion);
    AwardAppendsBare(b2, BudgetMaster);
    AwardGrows(b1, SavingsChampion);
    AwardGrows(b2, BudgetMaster);
  }

  lemma AwardAppendsBare(bs: seq<Badge>, t: string)
    ensures forall i :: |bs| <= i < |Award(bs, t)| ==> Award(bs, t)[i] == CreatedBadge(t)
  {
  }

  /** The three assignments to `profile.financialData`, one after another. */
  method Recompute(doc: ProfileDoc, spent: real)
    modifies doc
    ensures doc.financialData == Financials(old(doc.financialData), spent, doc.loaded.monthlyIncome)
    ensures doc.achievements == old(doc.achievements)
  {
    doc.financialData := doc.financialData.(monthlySpent := spent);
    doc.financialData := doc.financialData.(totalSaved := doc.loaded.monthlyIncome - doc.financialData.monthlySpent);
    doc.financialData := doc.financialData.(savingsRate :=
      if doc.loaded.monthlyIncome > 0.0 then doc.financialData.totalSaved / doc.loaded.monthlyIncome * 100.0 else 0.0);
  }

  /**
   * After the expense is stored: 404 when no profile has the identifier as its
   * email; otherwise the profile gets the figures over all of the identifier's
   * expenses and the badge rules, and is written back only if it passes
   * validation (500 otherwise).
   */
  method UpdateProfileFor(store: Store, identifier: string) returns (r: Reply<Profile>)
    requires store.Valid()
    modifies store
    ensures store.Valid()
    ensures store.accounts == old(store.accounts) && store.expenses == old(store.expenses) && store.nextId == old(store.nextId)
    ensures FirstWhere(old(store.profiles), ProfileHasEmail(identifier)).None? ==>
              r == Fail(NotFound) && store.profiles == old(store.profiles)
    ensures FirstWhere(old(store.profiles), ProfileHasEmail(identifier)).Some? ==>
              var i := FirstWhere(old(store.profiles), ProfileHasEmail(identifier)).value;
              var q := Reevaluated(old(store.profiles)[i], Total(Find(store.expenses, OwnedBy(identifier))));
              (SavableProfile(q) ==> r == Ok(q) && store.profiles == old(store.profiles)[i := q])
              && (!SavableProfile(q) ==> r == Fail(ServerError) && store.profiles == old(store.profiles))
  {
    var found := FirstWhere(store.profiles, ProfileHasEmail(identifier));
    if found.None? {
      return Fail(NotFound);
    }
    var i := found.value;
    ghost var loaded := store.profiles[i];
    var doc := new ProfileDoc.Load(store.profiles[i]);

    var matched := Find(store.expenses, OwnedBy(identifier));
    MatchedTotal(matched);
    var spent := FirstOrZero(GroupAll(matched));
    Recompute(doc, spent);
    doc.CheckAndAwardBadges();

    var saved := doc.Snapshot();
    assert saved.financialData == Reevaluated(loaded, spent).financialData;
    assert saved.achievements == Reevaluated(loaded, spent).achievements;
    assert saved == Reevaluated(loaded, spent);
    if !SavableProfile(saved) {
      return Fail(ServerError);
    }
    store.ReplaceProfile(i, saved);
    r := Ok(saved);
  }

  /**
   * `POST /` of the expense router. 400 without identifier or category or with
   * no amount (0 is accepted); 500 when the schema rejects the expense.
   * Otherwise the expense is stored under the identifier itself, and stays
   * stored whatever the profile update that follows answers.
   */
  method PostExpense(store: Store, identifier: string, category: string, amount: Option<real>, date: Option<Stamp>, now: Stamp)
    returns (r: Reply<Profile>)
    requires store.Valid()
    modifies store
    ensures store.Valid()
    ensures store.accounts == old(store.accounts)
    ensures (identifier == "" || category == "" || amount.None?) ==>
              r == Fail(BadRequest) && store.expenses == old(store.expenses) && store.profiles == old(store.profiles)
    ensures identifier != "" && category != "" && amount.Some? && amount.value < 0.0 ==>
              r == Fail(ServerError) && store.expenses == old(store.expenses) && store.profiles == old(store.profiles)
    ensures identifier != "" && category != "" && amount.Some? && amount.value >= 0.0 ==>
              store.expenses == old(store.expenses) + [CreateExpense(old(store.nextId), identifier, category, amount.value, date, now).value]
    ensures identifier != "" && category != "" && amount.Some? && amount.value >= 0.0
            && FirstWhere(old(store.profiles), ProfileHasEmail(identifier)).None? ==>
              r == Fail(NotFound) && store.profiles == old(store.profiles)
    ensures identifier != "" && category != "" && amount.Some? && amount.value >= 0.0
            && FirstWhere(old(store.profiles), ProfileHasEmail(identifier)).Some? ==>
              var i := FirstWhere(old(store.profiles), ProfileHasEmail(identifier)).value;
              var q := Reevaluated(old(store.profiles)[i], Total(Find(store.expenses, OwnedBy(identifier))));
              (SavableProfile(q) ==> r == Ok(q) && store.profiles == old(store.profiles)[i := q])
              && (!SavableProfile(q) ==> r == Fail(ServerError) && store.profiles == old(store.profiles))
  {
    if identifier == "" || category == "" || amount.None? {
      return Fail(BadRequest);
    }
    var created := CreateExpense(store.nextId, identifier, category, amount.value, date, now);
    if created.None? {
      return Fail(ServerError);
    }
    store.Append(created.value);
    r := UpdateProfileFor(store, identifier);
  }
}
