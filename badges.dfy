/**
 * The server-side achievement engine (backend/utils/badgeUtils.js): awarding
 * a badge by title on a loaded profile document, and the three threshold
 * rules checked after every expense.
 */
module Badges {
  import opened Wrappers
  import opened Seqs
  import opened Records

  function TitleIs(t: string): Badge -> bool
  {
    (b: Badge) => b.title == t
  }

  /** `achievements.find(b => b.title === t)`: the position of the first badge with that title. */
  function FindTitle(bs: seq<Badge>, t: string): (r: Option<nat>)
    ensures r.Some? ==> r.value < |bs| && bs[r.value].title == t
                        && forall j :: 0 <= j < r.value ==> bs[j].title != t
    ensures r.None? ==> forall j :: 0 <= j < |bs| ==> bs[j].title != t
  {
    FirstWhere(bs, TitleIs(t))
  }

  /** The badge `awardBadge` creates when none has the title: only a title and the flag. */
  function CreatedBadge(t: string): Badge
  {
    Badge(None, t, None, true, None)
  }

  /** The badge list after `awardBadge(profile, t)`. */
  function Award(bs: seq<Badge>, t: string): (r: seq<Badge>)
    ensures exists i :: 0 <= i < |r| && r[i].title == t && r[i].earned
    ensures FindTitle(bs, t).None? ==> r == bs + [CreatedBadge(t)]
    ensures FindTitle(bs, t).Some? ==> |r| == |bs|
  {
    match FindTitle(bs, t)
    case None =>
      var r := bs + [CreatedBadge(t)];
      assert r[|bs|] == CreatedBadge(t);
      r
    case Some(i) =>
      var r := bs[i := bs[i].(earned := true)];
      assert r[i].title == t && r[i].earned;
      r
  }

  /** One badge list grows into another: nothing removed, reordered, renamed or unearned. */
  predicate Grows(before: seq<Badge>, after: seq<Badge>)
  {
    |before| <= |after|
    && forall i :: 0 <= i < |before| ==>
         after[i].title == before[i].title && after[i].id == before[i].id
         && after[i].description == before[i].description && after[i].icon == before[i].icon
         && (before[i].earned ==> after[i].earned)
  }

  lemma GrowsTransitive(a: seq<Badge>, b: seq<Badge>, c: seq<Badge>)
    requires Grows(a, b) && Grows(b, c)
    ensures Grows(a, c)
  {
  }

  /**
   * Awarding only ever adds a badge or sets a flag: the list grows, exactly the
   * first badge with the title is touched, and every other badge is kept.
   */
  lemma AwardGrows(bs: seq<Badge>, t: string)
    ensures Grows(bs, Award(bs, t))
    ensures forall i :: 0 <= i < |bs| && bs[i].title != t ==> Award(bs, t)[i] == bs[i]
    ensures forall i :: 0 <= i < |bs| && Some(i) != FindTitle(bs, t) ==> Award(bs, t)[i] == bs[i]
    ensures |Award(bs, t)| == if FindTitle(bs, t).None? then |bs| + 1 else |bs|
  {
  }

  /** Awarding a title twice is the same as awarding it once. */
  lemma AwardIdempotent(bs: seq<Badge>, t: string)
    ensures Award(Award(bs, t), t) == Award(bs, t)
  {
    var once := Award(bs, t);
    match FindTitle(bs, t)
    case None =>
      assert FindTitle(once, t) == Some(|bs|) by {
        assert once[|bs|].title == t;
        assert forall j :: 0 <= j < |bs| ==> once[j] == bs[j];
      }
    case Some(i) =>
      assert FindTitle(once, t) == Some(i) by {
        assert once[i].title == t;
        assert forall j :: 0 <= j < i ==> once[j].title != t by {
          assert forall j :: 0 <= j < i ==> once[j] == bs[j];
        }
      }
  }

  /** Goal Achiever: a positive annual goal of which at least 90 % is saved. */
  predicate GoalReached(totalSaved: real, annualSavingsAmount: real)
  {
    annualSavingsAmount > 0.0 && totalSaved >= 9.0 / 10.0 * annualSavingsAmount
  }

  /** Savings Champion: a savings rate of at least 60 %. */
  predicate ChampionRate(savingsRate: real)
  {
    savingsRate >= 60.0
  }

  /** Budget Master: spending within the monthly income. */
  predicate WithinIncome(monthlySpent: real, monthlyIncome: real)
  {
    monthlySpent <= monthlyIncome
  }

  /** The badge list after `checkAndAwardBadges(profile)`. */
  function CheckAndAward(bs: seq<Badge>, fd: FinancialData, monthlyIncome: real, annualSavingsAmount: real): (r: seq<Badge>)
    ensures Grows(bs, r)
  {
    var b1 := if GoalReached(fd.totalSaved, annualSavingsAmount) then Award(bs, GoalAchiever) else bs;
    var b2 := if ChampionRate(fd.savingsRate) then Award(b1, SavingsChampion) else b1;
    var b3 := if WithinIncome(fd.monthlySpent, monthlyIncome) then Award(b2, BudgetMaster) else b2;
    AwardGrows(bs, GoalAchiever);
    AwardGrows(b1, SavingsChampion);
    AwardGrows(b2, BudgetMaster);
    assert Grows(bs, b1) && Grows(b1, b2) && Grows(b2, b3);
    GrowsTransitive(bs, b1, b2);
    GrowsTransitive(bs, b2, b3);
    b3
  }

  /** A title whose rule holds ends up with an earned badge. */
  lemma CheckAndAwardEarns(bs: seq<Badge>, fd: FinancialData, monthlyIncome: real, annualSavingsAmount: real, t: string)
    requires (t == GoalAchiever && GoalReached(fd.totalSaved, annualSavingsAmount))
             || (t == SavingsChampion && ChampionRate(fd.savingsRate))
             || (t == BudgetMaster && WithinIncome(fd.monthlySpent, monthlyIncome))
    ensures exists i :: 0 <= i < |CheckAndAward(bs, fd, monthlyIncome, annualSavingsAmount)|
              && CheckAndAward(bs, fd, monthlyIncome, annualSavingsAmount)[i].title == t
              && CheckAndAward(bs, fd, monthlyIncome, annualSavingsAmount)[i].earned
  {
    var b1 := if GoalReached(fd.totalSaved, annualSavingsAmount) then Award(bs, GoalAchiever) else bs;
    var b2 := if ChampionRate(fd.savingsRate) then Award(b1, SavingsChampion) else b1;
    var r := CheckAndAward(bs, fd, monthlyIncome, annualSavingsAmount);
    AwardGrows(b1, SavingsChampion);
    AwardGrows(b2, BudgetMaster);
    if t == GoalAchiever && GoalReached(fd.totalSaved, annualSavingsAmount) {
      var i :| 0 <= i < |b1| && b1[i].title == t && b1[i].earned;
      assert Grows(b1, r);
      assert r[i].title == t && r[i].earned;
    } else if t == SavingsChampion && ChampionRate(fd.savingsRate) {
      var i :| 0 <= i < |b2| && b2[i].title == t && b2[i].earned;
      assert r[i].title == t && r[i].earned;
    }
  }

  /**
   * A badge is left exactly as it was unless its title is one of the three
   * checked titles and that title's rule holds.
   */
  lemma CheckAndAwardUntouched(bs: seq<Badge>, fd: FinancialData, monthlyIncome: real, annualSavingsAmount: real, i: int)
    requires 0 <= i < |bs|
    requires bs[i].title == GoalAchiever ==> !GoalReached(fd.totalSaved, annualSavingsAmount)
    requires bs[i].title == SavingsChampion ==> !ChampionRate(fd.savingsRate)
    requires bs[i].title == BudgetMaster ==> !WithinIncome(fd.monthlySpent, monthlyIncome)
    ensures CheckAndAward(bs, fd, monthlyIncome, annualSavingsAmount)[i] == bs[i]
  {
    var b1 := if GoalReached(fd.totalSaved, annualSavingsAmount) then Award(bs, GoalAchiever) else bs;
    var b2 := if ChampionRate(fd.savingsRate) then Award(b1, SavingsChampion) else b1;
    AwardGrows(bs, GoalAchiever);
    AwardGrows(b1, SavingsChampion);
    AwardGrows(b2, BudgetMaster);
  }

  /** A profile document loaded into memory, whose badge list and financial figures are updated in place. */
  class ProfileDoc {
    /** The document as loaded; the two fields below supersede its copies of them. */
    const loaded: Profile
    var achievements: seq<Badge>
    var financialData: FinancialData

    constructor Load(p: Profile)
      ensures loaded == p && achievements == p.achievements && financialData == p.financialData
    {
      loaded := p;
      achievements := p.achievements;
      financialData := p.financialData;
    }

    /** The document as `save()` would write it. */
    function Snapshot(): (p: Profile)
      reads this
      ensures p.achievements == achievements && p.financialData == financialData
      ensures p.email == loaded.email && p.name == loaded.name && p.monthlyIncome == loaded.monthlyIncome
    {
      loaded.(achievements := achievements, financialData := financialData)
    }

    /** `awardBadge(this, t)`. */
    method AwardBadge(t: string)
      modifies this
      ensures achievements == Award(old(achievements), t)
      ensures financialData == old(financialData)
    {
      var found := FindTitle(achievements, t);
      if found.None? {
        achievements := achievements + [CreatedBadge(t)];
      } else if !achievements[found.value].earned {
        achievements := achievements[found.value := achievements[found.value].(earned := true)];
      }
    }

    /** `checkAndAwardBadges(this)`. */
    method CheckAndAwardBadges()
      modifies this
      ensures achievements == CheckAndAward(old(achievements), financialData, loaded.monthlyIncome, loaded.annualSavingsAmount)
      ensures financialData == old(financialData)
    {
      var totalSaved := financialData.totalSaved;
      var savingsGoal := loaded.annualSavingsAmount;
      var savingsRate := financialData.savingsRate;
      if savingsGoal > 0.0 && totalSaved >= 9.0 / 10.0 * savingsGoal {
        AwardBadge(GoalAchiever);
      }
      if savingsRate >= 60.0 {
        AwardBadge(SavingsChampion);
      }
      if financialData.monthlySpent <= loaded.monthlyIncome {
        AwardBadge(BudgetMaster);
      }
    }
  }
}
