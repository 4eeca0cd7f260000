/**
 * The stored documents: expenses (backend/models/Expenses.js), accounts
 * (backend/models/User.js) and profiles with their badge list
 * (backend/models/UserProfile.js), with the schema rules that Mongoose
 * enforces when a document is saved: required fields (a required string
 * may not be empty), `min: 0` on amounts, defaults and timestamps.
 */
module Records {
  import opened Wrappers
  import opened Calendar

  // ---------------------------------------------------------------- expenses

  /** An expense document; `id` stands for MongoDB's `_id`. */
  datatype Expense = Expense(
    id: nat,
    username: string,
    category: string,
    amount: real,
    date: Stamp,
    createdAt: Stamp,
    updatedAt: Stamp)

  /** What the schema guarantees of every stored expense. */
  predicate ValidExpense(e: Expense)
  {
    e.username != "" && e.category != "" && e.amount >= 0.0
  }

  /**
   * `new Expenses({username, category, amount, date}).save()`: `None` when the
   * schema rejects the document; `date` defaults to the creation time and the
   * timestamps are both set to it.
   */
  function CreateExpense(id: nat, username: string, category: string, amount: real,
                         date: Option<Stamp>, now: Stamp): (r: Option<Expense>)
    ensures r.Some? <==> username != "" && category != "" && amount >= 0.0
    ensures r.Some? ==> ValidExpense(r.value)
    ensures r.Some? ==> r.value.id == id && r.value.username == username
                        && r.value.category == category && r.value.amount == amount
    ensures r.Some? ==> r.value.date == (if date.Some? then date.value else now)
    ensures r.Some? ==> r.value.createdAt == now && r.value.updatedAt == now
  {
    if username == "" || category == "" || amount < 0.0 then None
    else Some(Expense(id, username, category, amount, date.GetOr(now), now, now))
  }

  // ---------------------------------------------------------------- accounts

  /** An account document. */
  datatype Account = Account(
    username: string,
    fullName: string,
    email: string,
    phoneNumber: int,
    password: string,
    confirmPassword: string,
    monthlyIncome: real,
    savingsGoal: real,
    defaultBudget: real)

  predicate ValidAccount(a: Account)
  {
    a.username != "" && a.fullName != "" && a.email != "" && a.password != "" && a.confirmPassword != ""
  }

  /** The registration request body; numbers may be absent. */
  datatype Registration = Registration(
    username: string,
    fullName: string,
    email: string,
    phoneNumber: Option<int>,
    password: string,
    confirmPassword: string,
    monthlyIncome: Option<real>,
    savingsGoal: Option<real>,
    defaultBudget: Option<real>)

  /** `new User(req.body)` checked against the schema: every field but `savingsGoal` is required. */
  function CreateAccount(reg: Registration): (r: Option<Account>)
    ensures r.Some? <==> reg.username != "" && reg.fullName != "" && reg.email != ""
                         && reg.phoneNumber.Some? && reg.password != "" && reg.confirmPassword != ""
                         && reg.monthlyIncome.Some? && reg.defaultBudget.Some?
    ensures r.Some? ==> ValidAccount(r.value) && r.value.username == reg.username && r.value.email == reg.email
    ensures r.Some? ==> r.value.savingsGoal == (if reg.savingsGoal.Some? then reg.savingsGoal.value else 0.0)
  {
    if reg.username == "" || reg.fullName == "" || reg.email == "" || reg.phoneNumber.None?
       || reg.password == "" || reg.confirmPassword == "" || reg.monthlyIncome.None? || reg.defaultBudget.None?
    then None
    else Some(Account(reg.username, reg.fullName, reg.email, reg.phoneNumber.value, reg.password,
                      reg.confirmPassword, reg.monthlyIncome.value, reg.savingsGoal.GetOr(0.0),
                      reg.defaultBudget.value))
  }

  /** The unique indexes on `username` and on `email`. */
  predicate UniqueAccounts(accounts: seq<Account>)
  {
    (forall i, j :: 0 <= i < j < |accounts| ==> accounts[i].username != accounts[j].username)
    && (forall i, j :: 0 <= i < j < |accounts| ==> accounts[i].email != accounts[j].email)
  }

  // ---------------------------------------------------------------- badges

  /**
   * An achievement. The catalog's badges carry every field; a badge that
   * backend/utils/badgeUtils.js creates carries only a title and the flag.
   */
  datatype Badge = Badge(id: Option<int>, title: string, description: Option<string>, earned: bool, icon: Option<string>)

  /** The achievement sub-schema: `id`, `title`, `description` and `icon` are required. */
  predicate CompleteBadge(b: Badge)
  {
    b.id.Some? && b.title != "" && b.description.Some? && b.description.value != ""
    && b.icon.Some? && b.icon.value != ""
  }

  const FirstLogin := "First Login"
  const DayOneCompleted := "Day 1 Completed"
  const TrackerBeginner := "Expense Tracker Beginner"
  const BudgetMaster := "Budget Master"
  const FinanceStreak := "Finance Streak"
  const GoalAchiever := "Goal Achiever"
  const SavingsChampion := "Savings Champion"

  function CatalogBadge(id: int, title: string, description: string, icon: string): Badge
  {
    Badge(Some(id), title, Some(description), false, Some(icon))
  }

  /** The five-badge catalog every new profile (and the client) starts from. */
  function DefaultAchievements(): (r: seq<Badge>)
    ensures |r| == 5
    ensures forall i :: 0 <= i < |r| ==> r[i].id == Some(i + 1) && !r[i].earned && CompleteBadge(r[i])
    ensures forall i, j :: 0 <= i < j < |r| ==> r[i].title != r[j].title
    ensures r[0].title == FirstLogin && r[1].title == DayOneCompleted && r[2].title == TrackerBeginner
            && r[3].title == BudgetMaster && r[4].title == FinanceStreak
  {
    [ CatalogBadge(1, FirstLogin, "Earned on your first day of login.", "\U{1F389}"),
      CatalogBadge(2, DayOneCompleted, "Unlocked after completing your first day.", "\U{2705}"),
      CatalogBadge(3, TrackerBeginner, "Add your first expense to earn this badge.", "\U{1F4B0}"),
      CatalogBadge(4, BudgetMaster, "Set your first budget to unlock this badge.", "\U{1F4CA}"),
      CatalogBadge(5, FinanceStreak, "Log in for 7 consecutive days.", "\U{1F525}") ]
  }

  // ---------------------------------------------------------------- profiles

  datatype Settings = Settings(emailNotifications: bool, mobileNotifications: bool)

  datatype FinancialData = FinancialData(totalSaved: real, savingsGoal: real, monthlySpent: real, savingsRate: real)

  /** A profile document, one per account, linked by `email`. */
  datatype Profile = Profile(
    name: string,
    email: string,
    phone: string,
    address: string,
    annualSavingsAmount: real,
    monthlyIncome: real,
    preferredCurrency: string,
    occupation: string,
    bio: string,
    financialGoal: string,
    profileImage: string,
    dateOfBirth: string,
    joinDate: string,
    membershipLevel: string,
    achievements: seq<Badge>,
    settings: Settings,
    financialData: FinancialData,
    createdAt: Stamp)

  /** What `save()` checks of a profile: required `name` and `email`, complete badges. */
  predicate SavableProfile(p: Profile)
  {
    p.name != "" && p.email != "" && forall i :: 0 <= i < |p.achievements| ==> CompleteBadge(p.achievements[i])
  }

  predicate UniqueProfiles(profiles: seq<Profile>)
  {
    forall i, j :: 0 <= i < j < |profiles| ==> profiles[i].email != profiles[j].email
  }

  /**
   * A profile built from nothing but its name and email: every other field
   * takes its schema default. `loadDate` is the `joinDate` default, which the
   * schema computes once, when the module is loaded.
   */
  function DefaultProfile(name: string, email: string, loadDate: string, now: Stamp): (p: Profile)
    ensures p.name == name && p.email == email && p.joinDate == loadDate && p.createdAt == now
    ensures p.achievements == DefaultAchievements()
    ensures p.settings.emailNotifications && p.settings.mobileNotifications
    ensures p.financialData == FinancialData(0.0, 0.0, 0.0, 0.0)
    ensures p.annualSavingsAmount == 0.0 && p.monthlyIncome == 0.0
    ensures p.preferredCurrency == "INR" && p.membershipLevel == "Basic"
    ensures p.phone == "" && p.address == "" && p.occupation == "" && p.bio == ""
            && p.financialGoal == "" && p.profileImage == "" && p.dateOfBirth == ""
    ensures name != "" && email != "" ==> SavableProfile(p)
  {
    Profile(name, email, "", "", 0.0, 0.0, "INR", "", "", "", "", "", loadDate, "Basic",
            DefaultAchievements(), Settings(true, true), FinancialData(0.0, 0.0, 0.0, 0.0), now)
  }

  /** A request body for the profile upsert: the fields it sets. */
  datatype ProfilePatch = ProfilePatch(
    name: Option<string>,
    phone: Option<string>,
    address: Option<string>,
    annualSavingsAmount: Option<real>,
    monthlyIncome: Option<real>,
    preferredCurrency: Option<string>,
    occupation: Option<string>,
    bio: Option<string>,
    financialGoal: Option<string>,
    profileImage: Option<string>,
    dateOfBirth: Option<string>,
    joinDate: Option<string>,
    membershipLevel: Option<string>,
    achievements: Option<seq<Badge>>,
    settings: Option<Settings>,
    financialData: Option<FinancialData>)

  /** `$set` of the fields the body carries; the email (the lookup key) is kept. */
  function ApplyPatch(p: Profile, patch: ProfilePatch): Profile
  {
    p.(name := patch.name.GetOr(p.name),
       phone := patch.phone.GetOr(p.phone),
       address := patch.address.GetOr(p.address),
       annualSavingsAmount := patch.annualSavingsAmount.GetOr(p.annualSavingsAmount),
       monthlyIncome := patch.monthlyIncome.GetOr(p.monthlyIncome),
       preferredCurrency := patch.preferredCurrency.GetOr(p.preferredCurrency),
       occupation := patch.occupation.GetOr(p.occupation),
       bio := patch.bio.GetOr(p.bio),
       financialGoal := patch.financialGoal.GetOr(p.financialGoal),
       profileImage := patch.profileImage.GetOr(p.profileImage),
       dateOfBirth := patch.dateOfBirth.GetOr(p.dateOfBirth),
       joinDate := patch.joinDate.GetOr(p.joinDate),
       membershipLevel := patch.membershipLevel.GetOr(p.membershipLevel),
       achievements := patch.achievements.GetOr(p.achievements),
       settings := patch.settings.GetOr(p.settings),
       financialData := patch.financialData.GetOr(p.financialData))
  }

  /** Applying the same body twice stores the same profile as applying it once. */
  lemma ApplyPatchIdempotent(p: Profile, patch: ProfilePatch)
    ensures ApplyPatch(ApplyPatch(p, patch), patch) == ApplyPatch(p, patch)
    ensures ApplyPatch(p, patch).email == p.email
  {
  }

  /** `new UserProfile(body)`: the defaults, overwritten by the fields the body carries. */
  function NewProfile(email: string, patch: ProfilePatch, loadDate: string, now: Stamp): Profile
  {
    ApplyPatch(DefaultProfile(patch.name.GetOr(""), email, loadDate, now), patch)
  }
}
