/**
 * The profile page's own computations (myreact-app/src/components/Profile.jsx):
 * bucketing expenses by calendar month, re-evaluating three badges after the
 * page loads, the budget-adherence progress, the current year's savings, the
 * Savings Champion rule, the CSV export text, the notification settings kept
 * in local storage and the "profile incomplete" banner.
 */
module ProfileView {
  import opened Wrappers
  import opened Calendar
  import opened Seqs
  import opened Text
  import opened Records
  import opened Aggregation
  import opened Badges

  // ---------------------------------------------------------------- month buckets

  /** The `"${year}-${month}"` key an expense is bucketed under. */
  datatype MonthKey = MonthKey(year: int, month: int)

  function KeyOf(e: Expense): MonthKey
  {
    MonthKey(e.date.date.year, e.date.date.month)
  }

  /** The keys of `monthlyTotals` after bucketing `es`, in insertion order (`Object.keys`). */
  function MonthKeys(es: seq<Expense>): (ks: seq<MonthKey>)
    ensures Distinct(ks)
    decreases |es|
  {
    if es == [] then []
    else
      var ks := MonthKeys(es[..|es| - 1]);
      var k := KeyOf(es[|es| - 1]);
      if k in ks then ks else ks + [k]
  }

  /** There is a bucket for a month exactly when some expense falls in it. */
  lemma {:induction false} MonthKeysExact(es: seq<Expense>, k: MonthKey)
    ensures k in MonthKeys(es) <==> exists i :: 0 <= i < |es| && KeyOf(es[i]) == k
    decreases |es|
  {
    if es != [] {
      var init := es[..|es| - 1];
      MonthKeysExact(init, k);
      if k in MonthKeys(init) {
        var i :| 0 <= i < |init| && KeyOf(init[i]) == k;
        assert es[i] == init[i];
      } else if exists i :: 0 <= i < |es| && KeyOf(es[i]) == k {
        var i :| 0 <= i < |es| && KeyOf(es[i]) == k;
        if i < |init| {
          assert KeyOf(init[i]) == k;
        }
      }
    }
  }

  /** `monthlyTotals[k]`: what `es` spent in month `k`, accumulated in input order. */
  function MonthSum(es: seq<Expense>, k: MonthKey): real
    decreases |es|
  {
    if es == [] then 0.0
    else MonthSum(es[..|es| - 1], k) + (if KeyOf(es[|es| - 1]) == k then es[|es| - 1].amount else 0.0)
  }

  /** A month with no bucket has spent nothing. */
  lemma {:induction false} MonthSumAbsent(es: seq<Expense>, k: MonthKey)
    requires k !in MonthKeys(es)
    ensures MonthSum(es, k) == 0.0
    decreases |es|
  {
    if es != [] {
      MonthSumAbsent(es[..|es| - 1], k);
    }
  }

  /** The month totals of `ks`, summed in order: `Object.values(monthlyTotals)` added up. */
  function SumMonths(ks: seq<MonthKey>, es: seq<Expense>): real
  {
    if ks == [] then 0.0 else SumMonths(ks[..|ks| - 1], es) + MonthSum(es, ks[|ks| - 1])
  }

  /** How many months among `ks` have a total within `budget`. */
  function CountWithin(ks: seq<MonthKey>, es: seq<Expense>, budget: real): (n: nat)
    ensures n <= |ks|
  {
    if ks == [] then 0
    else CountWithin(ks[..|ks| - 1], es, budget) + (if MonthSum(es, ks[|ks| - 1]) <= budget then 1 else 0)
  }

  /** A larger budget never counts fewer months as within it. */
  lemma {:induction false} CountWithinMonotone(ks: seq<MonthKey>, es: seq<Expense>, low: real, high: real)
    requires low <= high
    ensures CountWithin(ks, es, low) <= CountWithin(ks, es, high)
  {
    if ks != [] {
      CountWithinMonotone(ks[..|ks| - 1], es, low, high);
    }
  }

  /** One more expense adds its amount to exactly the bucket of its month. */
  lemma {:induction false} SumMonthsStep(ks: seq<MonthKey>, es: seq<Expense>, x: Expense)
    requires Distinct(ks)
    ensures SumMonths(ks, es + [x]) == SumMonths(ks, es) + (if KeyOf(x) in ks then x.amount else 0.0)
  {
    if ks != [] {
      var init := ks[..|ks| - 1];
      var last := ks[|ks| - 1];
      assert ks == init + [last];
      assert Distinct(init);
      assert (es + [x])[..|es|] == es;
      SumMonthsStep(init, es, x);
      assert KeyOf(x) in ks <==> KeyOf(x) in init || KeyOf(x) == last;
      if KeyOf(x) == last {
        assert last !in init by {
          forall j | 0 <= j < |init| ensures init[j] != last {
            assert ks[j] != ks[|ks| - 1];
          }
        }
      }
    }
  }

  /** The month totals add up to the total of all the records bucketed. */
  lemma {:induction false} MonthsAddUp(es: seq<Expense>)
    ensures SumMonths(MonthKeys(es), es) == Total(es)
    decreases |es|
  {
    if es != [] {
      var init := es[..|es| - 1];
      var x := es[|es| - 1];
      var ks := MonthKeys(init);
      assert es == init + [x];
      MonthsAddUp(init);
      SumMonthsStep(ks, init, x);
      TotalAppend(init, [x]);
      TotalOne(x);
      if KeyOf(x) !in ks {
        var ks' := ks + [KeyOf(x)];
        assert ks'[..|ks'| - 1] == ks;
        MonthSumAbsent(init, KeyOf(x));
      }
    }
  }

  /** The `forEach` that fills `monthlyTotals`: its keys in insertion order and its values. */
  method GroupByMonth(es: seq<Expense>) returns (keys: seq<MonthKey>, totals: map<MonthKey, real>)
    ensures keys == MonthKeys(es)
    ensures forall k :: k in totals <==> k in keys
    ensures forall k :: k in totals ==> totals[k] == MonthSum(es, k)
  {
    keys := [];
    totals := map[];
    var i := 0;
    while i < |es|
      invariant 0 <= i <= |es|
      invariant keys == MonthKeys(es[..i])
      invariant forall k :: k in totals <==> k in keys
      invariant forall k :: k in totals ==> totals[k] == MonthSum(es[..i], k)
    {
      var key := KeyOf(es[i]);
      assert es[..i + 1][..i] == es[..i];
      if key in totals {
        totals := totals[key := totals[key] + es[i].amount];
      } else {
        MonthSumAbsent(es[..i], key);
        keys := keys + [key];
        totals := totals[key := 0.0 + es[i].amount];
      }
      i := i + 1;
    }
    assert es[..|es|] == es;
  }

  /** `user.monthlyBudget || user.monthlyIncome * 0.8`: an unset or zero budget falls back to 80% of income. */
  function EffectiveBudget(monthlyBudget: Option<real>, monthlyIncome: real): (b: real)
    ensures monthlyBudget.Some? && monthlyBudget.value != 0.0 ==> b == monthlyBudget.value
    ensures monthlyBudget.None? || monthlyBudget.value == 0.0 ==> b == monthlyIncome * 4.0 / 5.0
  {
    if monthlyBudget.Some? && monthlyBudget.value != 0.0 then monthlyBudget.value else monthlyIncome * 0.8
  }

  /** `monthsWithinBudget`: the months whose bucket total is at most `budget`. */
  method MonthsWithinBudget(es: seq<Expense>, budget: real) returns (n: nat)
    ensures n == CountWithin(MonthKeys(es), es, budget)
    ensures n <= |MonthKeys(es)|
  {
    var keys, totals := GroupByMonth(es);
    n := 0;
    var j := 0;
    while j < |keys|
      invariant 0 <= j <= |keys|
      invariant n == CountWithin(keys[..j], es, budget)
    {
      assert keys[..j + 1][..j] == keys[..j];
      if totals[keys[j]] <= budget {
        n := n + 1;
      }
      j := j + 1;
    }
    assert keys[..|keys|] == keys;
  }

  // ---------------------------------------------------------------- badge re-evaluation

  /** The list with the badge at `at` (a `findIndex` result) set to `earned := v`. */
  function SetEarnedAt(bs: seq<Badge>, at: Option<nat>, v: bool): (r: seq<Badge>)
    requires at.Some? ==> at.value < |bs|
    ensures |r| == |bs|
    ensures forall i :: 0 <= i < |bs| && at != Some(i) ==> r[i] == bs[i]
    ensures at.Some? ==> r[at.value] == bs[at.value].(earned := v)
  {
    if at.None? then bs else bs[at.value := bs[at.value].(earned := v)]
  }

  /** Whether a day has passed since joining: `(now - joinDate) / 86400000 >= 1` on a parsed join date. */
  predicate DayPassed(joinDate: Option<Stamp>, now: Stamp)
  {
    joinDate.Some? && ElapsedMs(joinDate.value, now) >= MsPerDay
  }

  /**
   * The badge list after the page's check: Expense Tracker Beginner set to
   * "there are expenses", Day 1 Completed set once a day has passed since
   * joining, Budget Master set to "twelve months within budget". Positions
   * are looked up in the list as loaded.
   */
  function Reevaluated(bs: seq<Badge>, hasExpenses: bool, dayPassed: bool, monthsWithin: nat): (r: seq<Badge>)
    ensures |r| == |bs|
  {
    var b1 := SetEarnedAt(bs, FindTitle(bs, TrackerBeginner), hasExpenses);
    var b2 := if dayPassed then SetEarnedAt(b1, FindTitle(bs, DayOneCompleted), true) else b1;
    SetEarnedAt(b2, FindTitle(bs, BudgetMaster), monthsWithin >= 12)
  }

  /** Expense Tracker Beginner ends up earned exactly when there are expenses, in either direction. */
  lemma ReevaluatedBeginner(bs: seq<Badge>, hasExpenses: bool, dayPassed: bool, monthsWithin: nat)
    ensures FindTitle(bs, TrackerBeginner).Some? ==>
      Reevaluated(bs, hasExpenses, dayPassed, monthsWithin)[FindTitle(bs, TrackerBeginner).value].earned == hasExpenses
  {
    var t := FindTitle(bs, TrackerBeginner);
    if t.Some? {
      var d := FindTitle(bs, DayOneCompleted);
      var m := FindTitle(bs, BudgetMaster);
      assert d != t && m != t by {
        assert bs[t.value].title == TrackerBeginner;
      }
    }
  }

  /** Day 1 Completed is set once a day has passed and is never taken away. */
  lemma ReevaluatedDayOne(bs: seq<Badge>, hasExpenses: bool, dayPassed: bool, monthsWithin: nat)
    ensures FindTitle(bs, DayOneCompleted).Some? ==>
      var i := FindTitle(bs, DayOneCompleted).value;
      Reevaluated(bs, hasExpenses, dayPassed, monthsWithin)[i].earned == (bs[i].earned || dayPassed)
  {
    var d := FindTitle(bs, DayOneCompleted);
    if d.Some? {
      var t := FindTitle(bs, TrackerBeginner);
      var m := FindTitle(bs, BudgetMaster);
      assert t != d && m != d by {
        assert bs[d.value].title == DayOneCompleted;
      }
    }
  }

  /** Budget Master ends up earned exactly when twelve months are within budget, in either direction. */
  lemma ReevaluatedBudgetMaster(bs: seq<Badge>, hasExpenses: bool, dayPassed: bool, monthsWithin: nat)
    ensures FindTitle(bs, BudgetMaster).Some? ==>
      (Reevaluated(bs, hasExpenses, dayPassed, monthsWithin)[FindTitle(bs, BudgetMaster).value].earned
       == (monthsWithin >= 12))
  {
  }

  /**
   * Only the three flags can change: every badge keeps its title, id, text and
   * icon, and a badge with any other title (First Login, Finance Streak, ...)
   * is left exactly as it was.
   */
  lemma ReevaluatedOthers(bs: seq<Badge>, hasExpenses: bool, dayPassed: bool, monthsWithin: nat)
    ensures var r := Reevaluated(bs, hasExpenses, dayPassed, monthsWithin);
      forall i :: 0 <= i < |bs| ==> r[i] == bs[i].(earned := r[i].earned)
    ensures var r := Reevaluated(bs, hasExpenses, dayPassed, monthsWithin);
      forall i :: (0 <= i < |bs| && bs[i].title != TrackerBeginner && bs[i].title != DayOneCompleted
                   && bs[i].title != BudgetMaster) ==> r[i] == bs[i]
  {
  }

  /** Whether the check changes some flag of the loaded list. */
  predicate FlagChanges(bs: seq<Badge>, hasExpenses: bool, dayPassed: bool, monthsWithin: nat)
  {
    var t := FindTitle(bs, TrackerBeginner);
    var d := FindTitle(bs, DayOneCompleted);
    var m := FindTitle(bs, BudgetMaster);
    (t.Some? && bs[t.value].earned != hasExpenses)
    || (dayPassed && d.Some? && !bs[d.value].earned)
    || (m.Some? && bs[m.value].earned != (monthsWithin >= 12))
  }

  lemma SetEarnedSame(bs: seq<Badge>, at: Option<nat>, v: bool)
    requires at.Some? ==> at.value < |bs| && bs[at.value].earned == v
    ensures SetEarnedAt(bs, at, v) == bs
  {
    if at.Some? {
      assert bs[at.value].(earned := v) == bs[at.value];
    }
  }

  /** The re-evaluated list differs from the loaded one exactly when some flag changes. */
  lemma ReevaluatedChanges(bs: seq<Badge>, hasExpenses: bool, dayPassed: bool, monthsWithin: nat)
    ensures Reevaluated(bs, hasExpenses, dayPassed, monthsWithin) != bs
            <==> FlagChanges(bs, hasExpenses, dayPassed, monthsWithin)
  {
    var r := Reevaluated(bs, hasExpenses, dayPassed, monthsWithin);
    var t := FindTitle(bs, TrackerBeginner);
    var d := FindTitle(bs, DayOneCompleted);
    var m := FindTitle(bs, BudgetMaster);
    ReevaluatedBeginner(bs, hasExpenses, dayPassed, monthsWithin);
    ReevaluatedDayOne(bs, hasExpenses, dayPassed, monthsWithin);
    ReevaluatedBudgetMaster(bs, hasExpenses, dayPassed, monthsWithin);
    if FlagChanges(bs, hasExpenses, dayPassed, monthsWithin) {
      if t.Some? && bs[t.value].earned != hasExpenses {
        assert r[t.value] != bs[t.value];
      } else if dayPassed && d.Some? && !bs[d.value].earned {
        assert r[d.value] != bs[d.value];
      } else {
        assert r[m.value] != bs[m.value];
      }
    } else {
      SetEarnedSame(bs, t, hasExpenses);
      var b1 := SetEarnedAt(bs, t, hasExpenses);
      if dayPassed {
        SetEarnedSame(b1, d, true);
      }
      var b2 := if dayPassed then SetEarnedAt(b1, d, true) else b1;
      SetEarnedSame(b2, m, monthsWithin >= 12);
    }
  }

  /**
   * One flag update as the page writes it: set the flag when it should be on
   * and is off, clear it when it should be off and is on, and note the change.
   */
  method SetFlag(updated: seq<Badge>, i: nat, v: bool, hasUpdates: bool) returns (r: seq<Badge>, changed: bool)
    requires i < |updated|
    ensures r == SetEarnedAt(updated, Some(i), v)
    ensures changed <==> hasUpdates || updated[i].earned != v
  {
    r := updated;
    changed := hasUpdates;
    if v && !updated[i].earned {
      r := updated[i := updated[i].(earned := true)];
      changed := true;
    } else if !v && updated[i].earned {
      r := updated[i := updated[i].(earned := false)];
      changed := true;
    } else {
      SetEarnedSame(updated, Some(i), v);
    }
  }

  /**
   * `checkAndUpdateAchievements` on the loaded list, the user's expenses, the
   * parsed join date and the current time: the list the page shows afterwards,
   * and whether it was replaced (it is, exactly when some flag changed).
   */
  method CheckAndUpdateAchievements(achievements: seq<Badge>, userExpenses: seq<Expense>,
                                    joinDate: Option<Stamp>, now: Stamp,
                                    monthlyBudget: Option<real>, monthlyIncome: real)
    returns (shown: seq<Badge>, hasUpdates: bool)
    ensures shown == Reevaluated(achievements, |userExpenses| > 0, DayPassed(joinDate, now),
                                 CountWithin(MonthKeys(userExpenses), userExpenses,
                                             EffectiveBudget(monthlyBudget, monthlyIncome)))
    ensures hasUpdates <==> shown != achievements
  {
    var monthsWithinBudget := MonthsWithinBudget(userExpenses, EffectiveBudget(monthlyBudget, monthlyIncome));
    shown, hasUpdates := ReevaluateFlags(achievements, |userExpenses| > 0, joinDate, now, monthsWithinBudget);
  }

  /** The three flag updates of the check and the final `if (hasUpdates) setAchievements(...)`. */
  method ReevaluateFlags(achievements: seq<Badge>, hasExpenses: bool, joinDate: Option<Stamp>, now: Stamp,
                         monthsWithinBudget: nat)
    returns (shown: seq<Badge>, hasUpdates: bool)
    ensures shown == Reevaluated(achievements, hasExpenses, DayPassed(joinDate, now), monthsWithinBudget)
    ensures hasUpdates <==> shown != achievements
  {
    var beginner := FindTitle(achievements, TrackerBeginner);
    var dayOne := FindTitle(achievements, DayOneCompleted);
    var master := FindTitle(achievements, BudgetMaster);
    DistinctPositions(achievements);

    var updated := achievements;
    hasUpdates := false;
    if beginner.Some? {
      updated, hasUpdates := SetFlag(updated, beginner.value, hasExpenses, hasUpdates);
    }
    ghost var b1 := SetEarnedAt(achievements, beginner, hasExpenses);
    assert updated == b1;

    updated, hasUpdates := DayOneStep(updated, dayOne, joinDate, now, hasUpdates);
    ghost var b2 := if DayPassed(joinDate, now) then SetEarnedAt(b1, dayOne, true) else b1;

    if master.Some? {
      updated, hasUpdates := SetFlag(updated, master.value, monthsWithinBudget >= 12, hasUpdates);
    }
    assert updated == SetEarnedAt(b2, master, monthsWithinBudget >= 12);
    ReevaluatedChanges(achievements, hasExpenses, DayPassed(joinDate, now), monthsWithinBudget);
    shown := if hasUpdates then updated else achievements;
  }

  /** The three looked-up positions are different badges. */
  lemma DistinctPositions(bs: seq<Badge>)
    ensures var t := FindTitle(bs, TrackerBeginner);
            var d := FindTitle(bs, DayOneCompleted);
            var m := FindTitle(bs, BudgetMaster);
            (t.Some? && d.Some? ==> t != d) && (t.Some? && m.Some? ==> t != m) && (d.Some? && m.Some? ==> d != m)
  {
  }

  /** The Day 1 Completed update: set, never cleared, once a day has passed since the join date. */
  method DayOneStep(updated: seq<Badge>, dayOne: Option<nat>, joinDate: Option<Stamp>, now: Stamp, hasUpdates: bool)
    returns (r: seq<Badge>, changed: bool)
    requires dayOne.Some? ==> dayOne.value < |updated|
    ensures r == if DayPassed(joinDate, now) then SetEarnedAt(updated, dayOne, true) else updated
    ensures changed <==> hasUpdates || (DayPassed(joinDate, now) && dayOne.Some? && !updated[dayOne.value].earned)
  {
    r, changed := updated, hasUpdates;
    if dayOne.Some? && joinDate.Some? {
      var i := dayOne.value;
      var diffTime := ElapsedMs(joinDate.value, now);
      if diffTime >= MsPerDay && !updated[i].earned {
        r, changed := SetFlag(updated, i, true, hasUpdates);
      } else if diffTime >= MsPerDay {
        SetEarnedSame(updated, dayOne, true);
      }
    }
  }

  // ---------------------------------------------------------------- budget progress

  /** `Math.min(monthsWithinBudget / 12 * 100, 100)`. */
  function ProgressOf(monthsWithin: nat): real
  {
    var p := monthsWithin as real / 12.0 * 100.0;
    if p < 100.0 then p else 100.0
  }

  /** The progress bar is a percentage, full exactly at twelve months. */
  lemma ProgressBounds(monthsWithin: nat)
    ensures 0.0 <= ProgressOf(monthsWithin) <= 100.0
    ensures ProgressOf(monthsWithin) == 100.0 <==> monthsWithin >= 12
    ensures monthsWithin < 12 ==> ProgressOf(monthsWithin) * 12.0 == monthsWithin as real * 100.0
  {
  }

  /** The progress bar is full exactly when the same check marks Budget Master earned. */
  lemma FullProgressIffBudgetMaster(bs: seq<Badge>, hasExpenses: bool, dayPassed: bool, monthsWithin: nat)
    requires FindTitle(bs, BudgetMaster).Some?
    ensures Reevaluated(bs, hasExpenses, dayPassed, monthsWithin)[FindTitle(bs, BudgetMaster).value].earned
            <==> ProgressOf(monthsWithin) == 100.0
  {
    ReevaluatedBudgetMaster(bs, hasExpenses, dayPassed, monthsWithin);
    ProgressBounds(monthsWithin);
  }

  /** `calculateBudgetProgress`: the months within budget and the adherence percentage. */
  method BudgetProgress(userExpenses: seq<Expense>, monthlyBudget: Option<real>, monthlyIncome: real)
    returns (budgetMonths: nat, budgetProgress: real)
    ensures budgetMonths == CountWithin(MonthKeys(userExpenses), userExpenses,
                                        EffectiveBudget(monthlyBudget, monthlyIncome))
    ensures budgetProgress == ProgressOf(budgetMonths)
    ensures 0.0 <= budgetProgress <= 100.0
  {
    budgetMonths := MonthsWithinBudget(userExpenses, EffectiveBudget(monthlyBudget, monthlyIncome));
    var p := budgetMonths as real / 12.0 * 100.0;
    budgetProgress := if p < 100.0 then p else 100.0;
  }

  // ---------------------------------------------------------------- savings this year

  /** `new Date(exp.date).getFullYear() === currentYear`. */
  function InYear(year: int): Expense -> bool
  {
    (e: Expense) => e.date.date.year == year
  }

  /**
   * `fetchTotalCategoryExpenses`: over the current year's months that have
   * expenses, the total spent and the sum of `income - month total`; a missing
   * income counts as 0.
   */
  method YearSavings(expenses: seq<Expense>, currentYear: int, monthlyIncome: Option<real>)
    returns (totalCategoryExpenses: real, totalSavings: real)
    ensures totalCategoryExpenses == Total(Filter(expenses, InYear(currentYear)))
    ensures totalSavings == Times(|MonthKeys(Filter(expenses, InYear(currentYear)))|, monthlyIncome.GetOr(0.0))
                            - totalCategoryExpenses
  {
    var year := Filter(expenses, InYear(currentYear));
    var keys, totals := GroupByMonth(year);
    var income := monthlyIncome.GetOr(0.0);
    totalCategoryExpenses, totalSavings := AddUpMonths(keys, totals, year, income);
    MonthsAddUp(year);
  }

  /** The `Object.values(monthlyTotals).forEach` loop: total spent, and income less spending per month. */
  method AddUpMonths(keys: seq<MonthKey>, totals: map<MonthKey, real>, ghost es: seq<Expense>, income: real)
    returns (totalExpenses: real, totalSavings: real)
    requires forall k :: k in totals ==> totals[k] == MonthSum(es, k)
    requires forall i :: 0 <= i < |keys| ==> keys[i] in totals
    ensures totalExpenses == SumMonths(keys, es)
    ensures totalSavings == Times(|keys|, income) - totalExpenses
  {
    totalSavings := 0.0;
    totalExpenses := 0.0;
    var j := 0;
    while j < |keys|
      invariant 0 <= j <= |keys|
      invariant totalExpenses == SumMonths(keys[..j], es)
      invariant totalSavings == Times(j, income) - totalExpenses
    {
      assert keys[..j + 1][..j] == keys[..j];
      var monthlyExpense := totals[keys[j]];
      totalSavings := totalSavings + (income - monthlyExpense);
      totalExpenses := totalExpenses + monthlyExpense;
      j := j + 1;
    }
    assert keys[..|keys|] == keys;
  }

  /** `x` added up `n` times: the income of `n` months. */
  function Times(n: nat, x: real): real
  {
    if n == 0 then 0.0 else Times(n - 1, x) + x
  }

  lemma {:induction false} TimesIsProduct(n: nat, x: real)
    ensures Times(n, x) == n as real * x
  {
    if n > 0 {
      TimesIsProduct(n - 1, x);
    }
  }

  // ---------------------------------------------------------------- Savings Champion

  function MonthIndex(k: MonthKey): int
  {
    k.year * 12 + k.month
  }

  function Earliness(k: MonthKey): real
  {
    -(MonthIndex(k) as real)
  }

  /** The month keys sorted oldest first (`sort((a, b) => new Date(a) - new Date(b))`). */
  function Chronological(ks: seq<MonthKey>): (r: seq<MonthKey>)
    ensures multiset(r) == multiset(ks)
    ensures forall i, j :: 0 <= i < j < |r| ==> MonthIndex(r[i]) <= MonthIndex(r[j])
  {
    var r := SortDesc(ks, Earliness);
    assert forall i, j :: 0 <= i < j < |r| ==> Earliness(r[i]) >= Earliness(r[j]);
    r
  }

  /** A month's savings rate in percent: `(income - spent) / income * 100`. */
  function SavingsRate(spent: real, income: real): real
    requires income != 0.0
  {
    (income - spent) / income * 100.0
  }

  predicate RateAtLeast60(spent: real, income: real)
    requires income != 0.0
  {
    SavingsRate(spent, income) >= 60.0
  }

  /** With a positive income, a 60% savings rate means spending at most 40% of it. */
  lemma RateAtLeast60IffSpentAtMost40Percent(spent: real, income: real)
    requires income > 0.0
    ensures RateAtLeast60(spent, income) <==> spent <= income * 2.0 / 5.0
  {
    var rate := SavingsRate(spent, income);
    assert rate * income == (income - spent) * 100.0;
    if rate >= 60.0 {
      assert rate * income >= 60.0 * income;
    } else {
      assert rate * income < 60.0 * income;
    }
  }

  /** The six latest months of `ks`, oldest first: `sortedMonths.slice(-6)`. */
  function LatestSix(ks: seq<MonthKey>): (r: seq<MonthKey>)
    ensures |r| == if |ks| < 6 then |ks| else 6
    ensures forall i :: 0 <= i < |r| ==> r[i] in ks
  {
    var c := Chronological(ks);
    var r := if |c| >= 6 then c[|c| - 6..] else c;
    forall i | 0 <= i < |r| ensures r[i] in ks {
      assert r[i] == c[|c| - |r| + i];
      assert r[i] in multiset(c);
    }
    r
  }

  /** No month outside the six kept is later than a month kept. */
  lemma LatestSixAreLatest(ks: seq<MonthKey>)
    ensures var c := Chronological(ks);
            var r := LatestSix(ks);
            r == c[|c| - |r|..]
            && forall i, j :: 0 <= i < |r| && 0 <= j < |c| - |r| ==> MonthIndex(c[j]) <= MonthIndex(r[i])
  {
    var c := Chronological(ks);
    var r := LatestSix(ks);
    forall i, j | 0 <= i < |r| && 0 <= j < |c| - |r| ensures MonthIndex(c[j]) <= MonthIndex(r[i]) {
      assert r[i] == c[|c| - |r| + i];
    }
  }

  /**
   * `calculateSavingsChampion`: false without an income or with fewer than six
   * expenses; otherwise true exactly when there are six months of expenses and
   * each of the six latest saved at least 60% of the income. The profile page
   * defines this check but never calls it, so no badge on the page depends on it.
   */
  method SavingsChampionEarned(expenses: seq<Expense>, monthlyIncome: real) returns (b: bool)
    ensures b <==> monthlyIncome != 0.0 && |expenses| >= 6 && |MonthKeys(expenses)| >= 6
                   && forall i :: 0 <= i < 6 ==>
                        RateAtLeast60(MonthSum(expenses, LatestSix(MonthKeys(expenses))[i]), monthlyIncome)
  {
    if monthlyIncome == 0.0 || |expenses| < 6 {
      return false;
    }
    var keys, totals := GroupByMonth(expenses);
    var last6 := LatestSix(keys);
    var allAbove60 := AllSaveSixtyPercent(last6, totals, expenses, monthlyIncome);
    b := |last6| == 6 && allAbove60;
  }

  /** The `last6.forEach` loop: whether every listed month saved at least 60% of the income. */
  method AllSaveSixtyPercent(months: seq<MonthKey>, totals: map<MonthKey, real>, ghost es: seq<Expense>, monthlyIncome: real)
    returns (allAbove60: bool)
    requires monthlyIncome != 0.0
    requires forall k :: k in totals ==> totals[k] == MonthSum(es, k)
    requires forall i :: 0 <= i < |months| ==> months[i] in totals
    ensures allAbove60 <==> forall i :: 0 <= i < |months| ==> RateAtLeast60(MonthSum(es, months[i]), monthlyIncome)
  {
    allAbove60 := true;
    var j := 0;
    while j < |months|
      invariant 0 <= j <= |months|
      invariant allAbove60 <==> forall i :: 0 <= i < j ==> RateAtLeast60(MonthSum(es, months[i]), monthlyIncome)
    {
      var spent := totals[months[j]];
      var rate := SavingsRate(spent, monthlyIncome);
      if rate < 60.0 {
        allAbove60 := false;
      }
      j := j + 1;
    }
  }

  // ---------------------------------------------------------------- CSV export

  /**
   * The text the file puts before every amount. The source file spells the
   * rupee sign as the three characters U+00E2 U+201A U+00B9 (its UTF-8 bytes
   * read as Windows-1252), and that is what ends up in the export.
   */
  const AmountPrefix: string := "\U{E2}\U{201A}\U{B9}"

  /** `x * 100` rounded half up to a whole number of cents. */
  function Cents(x: real): (c: int)
    ensures x * 100.0 - 0.5 < c as real <= x * 100.0 + 0.5
  {
    (x * 100.0 + 0.5).Floor
  }

  /** A non-negative number of cents as `units.cc`. */
  function CentsText(c: nat): string
  {
    NatToString(c / 100) + "." + Pad2(c % 100)
  }

  /** `toFixed(2)` on an exact amount: two decimals, rounded half up in magnitude, sign kept. */
  function Fixed2(x: real): string
  {
    if x < 0.0 then "-" + CentsText(Cents(-x)) else CentsText(Cents(x))
  }

  /** `CentsText(c)` reads back as `c`: whole units, a point, two digits of cents. */
  lemma CentsTextReadsBack(c: nat)
    ensures var s := CentsText(c);
      |s| >= 4 && s[|s| - 3] == '.' && AllDigits(s[..|s| - 3]) && AllDigits(s[|s| - 2..])
      && DigitsValue(s[..|s| - 3]) * 100 + DigitsValue(s[|s| - 2..]) == c
  {
    var w := NatToString(c / 100);
    var p := Pad2(c % 100);
    var s := w + "." + p;
    assert |p| == 2;
    assert s[..|s| - 3] == w;
    assert s[|s| - 2..] == p;
  }

  /** Reading `Fixed2(x)` back gives `x` to within half a cent. */
  lemma Fixed2ReadsBack(x: real)
    requires x >= 0.0
    ensures var s := Fixed2(x);
      |s| >= 4 && s[|s| - 3] == '.' && AllDigits(s[..|s| - 3]) && AllDigits(s[|s| - 2..])
      && x - 1.0 / 200.0 < (DigitsValue(s[..|s| - 3]) * 100 + DigitsValue(s[|s| - 2..])) as real / 100.0 <= x + 1.0 / 200.0
  {
    var c := Cents(x);
    CentsTextReadsBack(c);
    assert c as real / 100.0 > x - 1.0 / 200.0;
  }

  function Header(): seq<string>
  {
    ["Category", "Amount", "Date"]
  }

  /** One expense row: the category, the amount, the date in the browser's locale format. */
  function ExpenseRow(e: Expense, localeDate: Stamp -> string): seq<string>
  {
    [e.category, AmountPrefix + Fixed2(e.amount), localeDate(e.date)]
  }

  /** One row per expense, in the order received. */
  function ExpenseRows(es: seq<Expense>, localeDate: Stamp -> string): (r: seq<seq<string>>)
    ensures |r| == |es|
    ensures forall i :: 0 <= i < |es| ==> r[i] == ExpenseRow(es[i], localeDate)
  {
    MapBack(es, (e: Expense) => ExpenseRow(e, localeDate))
  }

  function TotalRow(total: real): seq<string>
  {
    ["Overall Total", AmountPrefix + Fixed2(total), ""]
  }

  /** `row.join(',')` for every row. */
  function RowTexts(rows: seq<seq<string>>): (r: seq<string>)
    ensures |r| == |rows|
    ensures forall i :: 0 <= i < |rows| ==> r[i] == Join(rows[i], ",")
  {
    if rows == [] then [] else [Join(rows[0], ",")] + RowTexts(rows[1..])
  }

  /** `csvData.map(row => row.join(',')).join('\n')`. */
  function CsvText(rows: seq<seq<string>>): string
  {
    Join(RowTexts(rows), "\n")
  }

  /**
   * `exportData`: a header row, one row per expense in the order received,
   * then the overall total of all amounts; the rows and the text written.
   */
  method ExportCsv(expenses: seq<Expense>, localeDate: Stamp -> string) returns (csvData: seq<seq<string>>, csvContent: string)
    ensures csvData == [Header()] + ExpenseRows(expenses, localeDate) + [TotalRow(Total(expenses))]
    ensures csvContent == CsvText(csvData)
  {
    var rows, overallTotal := ExpenseLines(expenses, localeDate);
    csvData := [Header()] + rows + [TotalRow(overallTotal)];
    csvContent := CsvText(csvData);
  }

  /** The `expenses.forEach` loop: the rows pushed and the running `overallTotal`. */
  method ExpenseLines(expenses: seq<Expense>, localeDate: Stamp -> string) returns (rows: seq<seq<string>>, overallTotal: real)
    ensures rows == ExpenseRows(expenses, localeDate)
    ensures overallTotal == Total(expenses)
  {
    rows := [];
    overallTotal := 0.0;
    var i := 0;
    while i < |expenses|
      invariant 0 <= i <= |expenses|
      invariant rows == ExpenseRows(expenses[..i], localeDate)
      invariant overallTotal == Total(expenses[..i])
    {
      var exp := expenses[i];
      assert expenses[..i + 1][..i] == expenses[..i];
      rows := rows + [ExpenseRow(exp, localeDate)];
      assert rows == MapBack(expenses[..i + 1], (e: Expense) => ExpenseRow(e, localeDate));
      TotalStep(expenses, i);
      overallTotal := overallTotal + exp.amount;
      i := i + 1;
    }
    assert expenses[..|expenses|] == expenses;
  }

  lemma TotalStep(es: seq<Expense>, i: nat)
    requires i < |es|
    ensures Total(es[..i + 1]) == Total(es[..i]) + es[i].amount
  {
    TotalAppend(es[..i], [es[i]]);
    assert es[..i + 1] == es[..i] + [es[i]];
    TotalOne(es[i]);
  }

  // ---------------------------------------------------------------- settings and banner

  /** `saveSettings`: a flag stored as `toString()`. */
  function SavedSetting(on: bool): string
  {
    if on then "true" else "false"
  }

  /** `loadSettings`: a stored flag is on iff it reads `'true'`; nothing stored means on. */
  function LoadedSetting(stored: Option<string>): (on: bool)
    ensures stored.None? ==> on
    ensures stored.Some? ==> (on <==> stored.value == "true")
  {
    if stored.Some? then stored.value == "true" else true
  }

  function LoadSettings(emailNotifications: Option<string>, mobileNotifications: Option<string>): Settings
  {
    Settings(LoadedSetting(emailNotifications), LoadedSetting(mobileNotifications))
  }

  /** Saved settings load back unchanged, and with nothing saved both notifications are on. */
  lemma SettingsRoundTrip(s: Settings)
    ensures LoadSettings(Some(SavedSetting(s.emailNotifications)), Some(SavedSetting(s.mobileNotifications))) == s
    ensures LoadSettings(None, None) == Settings(true, true)
  {
  }

  /** `isProfileIncomplete`: no name, no email, no phone, or an income of exactly 0. */
  predicate IsProfileIncomplete(p: Profile)
  {
    p.name == "" || p.email == "" || p.phone == "" || p.monthlyIncome == 0.0
  }

  /** A profile that only has its defaults shows the banner; one with every field filled in does not. */
  lemma DefaultProfileIncomplete(name: string, email: string, loadDate: string, now: Stamp, p: Profile)
    ensures IsProfileIncomplete(DefaultProfile(name, email, loadDate, now))
    ensures p.name != "" && p.email != "" && p.phone != "" && p.monthlyIncome > 0.0 ==> !IsProfileIncomplete(p)
  {
  }
}
