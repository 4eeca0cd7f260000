/**
 * The server's collections and route logic (backend/server.js): accounts,
 * profiles and expenses held by one store object, the routes that change them
 * as methods, and the read routes as functions of the store.
 */
module Ledger {
  import opened Wrappers
  import opened Calendar
  import opened Seqs
  import opened Text
  import opened Records
  import opened Aggregation
  import Uri

  /** `!identifier || !category || !amount` of the add route: a field is missing, empty or zero. */
  predicate AddFieldsMissing(identifier: string, category: string, amount: Option<real>)
  {
    identifier == "" || category == "" || amount.None? || amount.value == 0.0
  }

  function HasIdentifier(identifier: string): Account -> bool
  {
    (a: Account) => a.username == identifier || a.email == identifier
  }

  function HasEmail(email: string): Account -> bool
  {
    (a: Account) => a.email == email
  }

  function ProfileHasEmail(email: string): Profile -> bool
  {
    (p: Profile) => p.email == email
  }

  function HasId(id: nat): Expense -> bool
  {
    (e: Expense) => e.id == id
  }

  /** The user's own records: `{ username }`. */
  function OwnedBy(username: string): Query
  {
    Query(username, None, None)
  }

  /** The user's records in one category: `{ username, category }`. */
  function OwnedIn(username: string, category: string): Query
  {
    Query(username, Some(category), None)
  }

  /** The profile the login route creates for an account: its name, email, phone as text and income. */
  function LoginPatch(a: Account): ProfilePatch
  {
    ProfilePatch(Some(a.fullName), Some(IntToString(a.phoneNumber)), None, None, Some(a.monthlyIncome),
                 None, None, None, None, None, None, None, None, None, None, None)
  }

  /** The fields of an expense after a partial update (`findByIdAndUpdate` with timestamps). */
  function Updated(e: Expense, category: string, amount: Option<real>, date: Option<Stamp>, now: Stamp): (r: Expense)
    ensures r.id == e.id && r.username == e.username && r.createdAt == e.createdAt && r.updatedAt == now
    ensures r.category == (if category != "" then category else e.category)
    ensures r.amount == (if amount.Some? then amount.value else e.amount)
    ensures r.date == (if date.Some? then date.value else e.date)
  {
    e.(category := if category != "" then category else e.category,
       amount := amount.GetOr(e.amount),
       date := date.GetOr(e.date),
       updatedAt := now)
  }

  function RemoveAt<T>(s: seq<T>, i: nat): (r: seq<T>)
    requires i < |s|
    ensures |r| == |s| - 1
    ensures forall j :: 0 <= j < i ==> r[j] == s[j]
    ensures forall j :: i <= j < |r| ==> r[j] == s[j + 1]
  {
    s[..i] + s[i + 1..]
  }

  predicate DistinctIds(es: seq<Expense>)
  {
    forall i, j :: 0 <= i < j < |es| ==> es[i].id != es[j].id
  }

  /** Deleting records by a filter keeps the ids of the rest distinct. */
  lemma {:induction false} RejectKeepsDistinctIds(es: seq<Expense>, q: Query)
    requires DistinctIds(es)
    ensures DistinctIds(Reject(es, q))
  {
    if es != [] {
      RejectKeepsDistinctIds(es[1..], q);
      var rest := Reject(es[1..], q);
      if !Matches(es[0], q) {
        var r := Reject(es, q);
        assert r == [es[0]] + rest;
        forall j | 0 < j < |r| ensures r[0].id != r[j].id {
          assert r[j] == rest[j - 1];
          var k :| 0 <= k < |es[1..]| && es[1..][k] == rest[j - 1];
          assert es[1..][k] == es[k + 1];
        }
      }
    }
  }

  /** The collections, the id counter, and the `joinDate` default fixed when the server loads. */
  class Store {
    var accounts: seq<Account>
    var profiles: seq<Profile>
    var expenses: seq<Expense>
    var nextId: nat
    const loadDate: string

    /** The unique indexes, the schema rules every stored document satisfies, and fresh ids. */
    predicate Valid()
      reads this
    {
      UniqueAccounts(accounts)
      && (forall i :: 0 <= i < |accounts| ==> ValidAccount(accounts[i]))
      && UniqueProfiles(profiles)
      && (forall i :: 0 <= i < |expenses| ==> ValidExpense(expenses[i]) && expenses[i].id < nextId)
      && DistinctIds(expenses)
    }

    constructor (loadDate: string)
      ensures Valid()
      ensures accounts == [] && profiles == [] && expenses == [] && this.loadDate == loadDate
    {
      accounts := [];
      profiles := [];
      expenses := [];
      nextId := 0;
      this.loadDate := loadDate;
    }

    // ------------------------------------------------------------ lookups

    /** `getUsernameFromIdentifier`: the username of the first account whose username or email is `identifier`. */
    function Resolve(identifier: string): (r: Option<string>)
      reads this
      ensures r.None? <==> forall i :: 0 <= i < |accounts| ==> accounts[i].username != identifier && accounts[i].email != identifier
      ensures r.Some? ==> exists i :: 0 <= i < |accounts| && accounts[i].username == r.value
                             && (accounts[i].username == identifier || accounts[i].email == identifier)
    {
      match FirstWhere(accounts, HasIdentifier(identifier))
      case None => None
      case Some(i) => Some(accounts[i].username)
    }

    /** A user who signs in with their username is that user, unless it is also somebody's email. */
    lemma ResolveUsername(identifier: string, i: int)
      requires Valid() && 0 <= i < |accounts| && accounts[i].username == identifier
      requires forall j :: 0 <= j < |accounts| ==> accounts[j].email != identifier
      ensures Resolve(identifier) == Some(identifier)
    {
    }

    /** A user who signs in with their email is that user, unless it is also somebody's username. */
    lemma ResolveEmail(identifier: string, i: int)
      requires Valid() && 0 <= i < |accounts| && accounts[i].email == identifier
      requires forall j :: 0 <= j < |accounts| ==> accounts[j].username != identifier
      ensures Resolve(identifier) == Some(accounts[i].username)
    {
    }

    /** Anything found in a valid store is a valid record, so its total is not negative. */
    lemma FoundValid(found: seq<Expense>)
      requires Valid()
      requires forall i :: 0 <= i < |found| ==> found[i] in expenses
      ensures Total(found) >= 0.0
    {
      forall i | 0 <= i < |found| ensures ValidExpense(found[i]) {
        var j :| 0 <= j < |expenses| && expenses[j] == found[i];
      }
      TotalNonNegative(found);
    }

    // ------------------------------------------------------------ accounts and profiles

    /** `POST /register`: 400 for a document the schema rejects or a taken username or email. */
    method Register(reg: Registration) returns (r: Reply<Account>)
      requires Valid()
      modifies this
      ensures Valid()
      ensures r.Ok? <==> CreateAccount(reg).Some?
                         && forall i :: 0 <= i < |old(accounts)| ==>
                              old(accounts)[i].username != reg.username && old(accounts)[i].email != reg.email
      ensures r.Fail? ==> r.status == BadRequest && accounts == old(accounts)
      ensures r.Ok? ==> r.value == CreateAccount(reg).value && accounts == old(accounts) + [r.value]
      ensures profiles == old(profiles) && expenses == old(expenses) && nextId == old(nextId)
    {
      var created := CreateAccount(reg);
      if created.None? {
        return Fail(BadRequest);
      }
      var a := created.value;
      var clash := FirstWhere(accounts, (b: Account) => b.username == a.username || b.email == a.email);
      if clash.Some? {
        return Fail(BadRequest);
      }
      accounts := accounts + [a];
      r := Ok(a);
    }

    /**
     * `POST /login`: 401 unless the identifier names an account with that
     * password; on success a profile is created for the account's email when
     * none exists yet.
     */
    method Login(identifier: string, password: string, now: Stamp) returns (r: Reply<Account>)
      requires Valid()
      modifies this
      ensures Valid()
      ensures r.Fail? <==> (FirstWhere(accounts, HasIdentifier(identifier)).None?
                            || accounts[FirstWhere(accounts, HasIdentifier(identifier)).value].password != password)
      ensures r.Fail? ==> r.status == Unauthorized && profiles == old(profiles)
      ensures r.Ok? ==> r.value == accounts[FirstWhere(accounts, HasIdentifier(identifier)).value]
      ensures r.Ok? && FirstWhere(old(profiles), ProfileHasEmail(r.value.email)).None? ==>
                profiles == old(profiles) + [NewProfile(r.value.email, LoginPatch(r.value), loadDate, now)]
      ensures r.Ok? && FirstWhere(old(profiles), ProfileHasEmail(r.value.email)).Some? ==> profiles == old(profiles)
      ensures accounts == old(accounts) && expenses == old(expenses) && nextId == old(nextId)
    {
      var found := FirstWhere(accounts, HasIdentifier(identifier));
      if found.None? || accounts[found.value].password != password {
        return Fail(Unauthorized);
      }
      var a := accounts[found.value];
      var existing := FirstWhere(profiles, ProfileHasEmail(a.email));
      if existing.None? {
        profiles := profiles + [NewProfile(a.email, LoginPatch(a), loadDate, now)];
      }
      r := Ok(a);
    }

    /**
     * `POST /api/profile`: 404 without an account for the email; an existing
     * profile gets the body's fields (no validators run); otherwise a new
     * profile is built from the defaults and the body, and saved only if valid.
     */
    method UpsertProfile(email: string, patch: ProfilePatch, now: Stamp) returns (r: Reply<Profile>)
      requires Valid()
      modifies this
      ensures Valid()
      ensures FirstWhere(accounts, HasEmail(email)).None? ==> r == Fail(NotFound) && profiles == old(profiles)
      ensures FirstWhere(accounts, HasEmail(email)).Some? && FirstWhere(old(profiles), ProfileHasEmail(email)).Some? ==>
                var i := FirstWhere(old(profiles), ProfileHasEmail(email)).value;
                r == Ok(ApplyPatch(old(profiles)[i], patch)) && profiles == old(profiles)[i := r.value]
      ensures FirstWhere(accounts, HasEmail(email)).Some? && FirstWhere(old(profiles), ProfileHasEmail(email)).None? ==>
                var p := NewProfile(email, patch, loadDate, now);
                (SavableProfile(p) ==> r == Ok(p) && profiles == old(profiles) + [p])
                && (!SavableProfile(p) ==> r == Fail(ServerError) && profiles == old(profiles))
      ensures accounts == old(accounts) && expenses == old(expenses) && nextId == old(nextId)
    {
      if FirstWhere(accounts, HasEmail(email)).None? {
        return Fail(NotFound);
      }
      var existing := FirstWhere(profiles, ProfileHasEmail(email));
      if existing.Some? {
        var updated := ApplyPatch(profiles[existing.value], patch);
        profiles := profiles[existing.value := updated];
        assert forall j :: 0 <= j < |profiles| ==> profiles[j].email == old(profiles)[j].email;
        return Ok(updated);
      }
      var p := NewProfile(email, patch, loadDate, now);
      if !SavableProfile(p) {
        return Fail(ServerError);
      }
      profiles := profiles + [p];
      r := Ok(p);
    }

    /** `GET /api/profile/:email`. */
    function GetProfile(email: string): (r: Reply<Profile>)
      reads this
      ensures r.Fail? <==> forall i :: 0 <= i < |profiles| ==> profiles[i].email != email
      ensures r.Fail? ==> r.status == NotFound
      ensures r.Ok? ==> r.value in profiles && r.value.email == email
    {
      match FirstWhere(profiles, ProfileHasEmail(email))
      case None => Fail(NotFound)
      case Some(i) => Ok(profiles[i])
    }

    /** `GET /api/user/budget/:identifier`: the account's income and default budget. */
    function UserBudget(identifier: string): (r: Reply<(real, real)>)
      reads this
      ensures r.Fail? <==> Resolve(identifier).None?
      ensures r.Fail? ==> r.status == NotFound
      ensures r.Ok? ==> exists i :: 0 <= i < |accounts| && accounts[i].username == Resolve(identifier).value
                          && r.value == (accounts[i].monthlyIncome, accounts[i].defaultBudget)
    {
      match FirstWhere(accounts, HasIdentifier(identifier))
      case None => Fail(NotFound)
      case Some(i) => Ok((accounts[i].monthlyIncome, accounts[i].defaultBudget))
    }

    // ------------------------------------------------------------ expense reads

    /** `GET /api/expenses/:identifier`: the user's records, newest first. */
    function GetExpenses(identifier: string): (r: Reply<seq<Expense>>)
      reads this
      ensures r.Fail? <==> Resolve(identifier).None?
      ensures r.Fail? ==> r.status == NotFound
      ensures r.Ok? ==> forall e :: multiset(r.value)[e] ==
                          (if e.username == Resolve(identifier).value then multiset(expenses)[e] else 0)
      ensures r.Ok? ==> forall i, j :: 0 <= i < j < |r.value| ==> Rank(r.value[i].date) >= Rank(r.value[j].date)
    {
      match Resolve(identifier)
      case None => Fail(NotFound)
      case Some(u) => Ok(FindNewestFirst(expenses, OwnedBy(u)))
    }

    /** `GET /api/expenses/today/:identifier`: the sum of the user's records dated on `now`'s day. */
    function TodayTotal(identifier: string, now: Stamp): (r: Reply<real>)
      reads this
      ensures r.Fail? <==> Resolve(identifier).None?
      ensures r.Fail? ==> r.status == NotFound
      ensures r.Ok? ==> r.value == Total(Find(expenses, TodayWindow(Resolve(identifier).value, now)))
      ensures r.Ok? && Valid() ==> r.value >= 0.0
    {
      match Resolve(identifier)
      case None => Fail(NotFound)
      case Some(u) =>
        var matched := Find(expenses, TodayWindow(u, now));
        MatchedTotal(matched);
        assert Valid() ==> Total(matched) >= 0.0 by {
          if Valid() {
            FoundValid(matched);
          }
        }
        Ok(FirstOrZero(GroupAll(matched)))
    }

    /** `GET /api/expenses/month/:identifier`: the sum of the user's records in `now`'s month. */
    function MonthTotal(identifier: string, now: Stamp): (r: Reply<real>)
      reads this
      ensures r.Fail? <==> Resolve(identifier).None?
      ensures r.Fail? ==> r.status == NotFound
      ensures r.Ok? ==> r.value == Total(Find(expenses, MonthWindow(Resolve(identifier).value, now)))
      ensures r.Ok? && Valid() ==> r.value >= 0.0
    {
      match Resolve(identifier)
      case None => Fail(NotFound)
      case Some(u) =>
        var matched := Find(expenses, MonthWindow(u, now));
        MatchedTotal(matched);
        assert Valid() ==> Total(matched) >= 0.0 by {
          if Valid() {
            FoundValid(matched);
          }
        }
        Ok(FirstOrZero(GroupAll(matched)))
    }

    /**
     * `GET /api/expenses/date-range/:identifier`: 400 without both dates, 404
     * for an unknown user; otherwise always the user's records from the start
     * of the first day to the end of the last, newest first.
     */
    function DateRange(identifier: string, startDate: Option<CivilDate>, endDate: Option<CivilDate>): (r: Reply<seq<Expense>>)
      reads this
      ensures (startDate.None? || endDate.None?) ==> r == Fail(BadRequest)
      ensures startDate.Some? && endDate.Some? && Resolve(identifier).None? ==> r == Fail(NotFound)
      ensures r.Ok? <==> startDate.Some? && endDate.Some? && Resolve(identifier).Some?
      ensures r.Ok? ==> forall e :: multiset(r.value)[e] ==
                          (if e.username == Resolve(identifier).value
                              && DateLe(startDate.value, e.date.date) && DateLe(e.date.date, endDate.value)
                           then multiset(expenses)[e] else 0)
      ensures r.Ok? ==> forall i, j :: 0 <= i < j < |r.value| ==> Rank(r.value[i].date) >= Rank(r.value[j].date)
      ensures r.Ok? && !DateLe(startDate.value, endDate.value) ==> r.value == []
    {
      if startDate.None? || endDate.None? then Fail(BadRequest)
      else match Resolve(identifier)
        case None => Fail(NotFound)
        case Some(u) =>
          var q := DayWindow(u, startDate.value, endDate.value);
          var found := FindNewestFirst(expenses, q);
          assert forall e :: Matches(e, q) <==>
                   e.username == u && DateLe(startDate.value, e.date.date) && DateLe(e.date.date, endDate.value) by {
            forall e ensures Matches(e, q) <==>
                   e.username == u && DateLe(startDate.value, e.date.date) && DateLe(e.date.date, endDate.value) {
              InDaysByDate(e.date, startDate.value, endDate.value);
            }
          }
          if !DateLe(startDate.value, endDate.value) then
            ReversedWindowEmpty(expenses, u, startDate.value, endDate.value);
            Ok(found)
          else Ok(found)
    }

    /** `GET /api/expenses/categories/:identifier`: the category summary of the user's records. */
    function CategoriesSummary(identifier: string): (r: Reply<seq<CategorySummary>>)
      reads this
      ensures r.Fail? <==> Resolve(identifier).None?
      ensures r.Fail? ==> r.status == NotFound
      ensures r.Ok? ==> r.value == CategorySummaries(Find(expenses, OwnedBy(Resolve(identifier).value)))
      ensures r.Ok? ==> SumBy(r.value, SpentOf) == Total(Find(expenses, OwnedBy(Resolve(identifier).value)))
    {
      match Resolve(identifier)
      case None => Fail(NotFound)
      case Some(u) =>
        SummariesAddUp(Find(expenses, OwnedBy(u)));
        Ok(CategorySummaries(Find(expenses, OwnedBy(u))))
    }

    /**
     * `GET /api/expenses/category/:identifier/:category`: 404 for an unknown
     * user; the route parameter, already decoded once by the router, goes
     * through `decodeURIComponent` again, and its `URIError` answers 500;
     * otherwise the user's records in the decoded category, newest first.
     */
    function CategoryExpenses(identifier: string, category: string): (r: Reply<seq<Expense>>)
      reads this
      ensures r == Fail(NotFound) <==> Resolve(identifier).None?
      ensures r == Fail(ServerError) <==> Resolve(identifier).Some? && Uri.DecodeUriComponent(category).None?
      ensures r.Ok? <==> Resolve(identifier).Some? && Uri.DecodeUriComponent(category).Some?
      ensures r.Ok? ==> forall e :: multiset(r.value)[e] ==
                          (if e.username == Resolve(identifier).value
                              && e.category == Uri.DecodeUriComponent(category).value
                           then multiset(expenses)[e] else 0)
      ensures r.Ok? ==> forall i, j :: 0 <= i < j < |r.value| ==> Rank(r.value[i].date) >= Rank(r.value[j].date)
    {
      match Resolve(identifier)
      case None => Fail(NotFound)
      case Some(u) =>
        match Uri.DecodeUriComponent(category)
        case None => Fail(ServerError)
        case Some(c) => Ok(FindNewestFirst(expenses, OwnedIn(u, c)))
    }

    /** `GET /api/expenses/user/:username`: the records stored under that exact username, unsorted; never 404. */
    function UserExpenses(username: string): (r: seq<Expense>)
      reads this
      ensures forall e :: multiset(r)[e] == if e.username == username then multiset(expenses)[e] else 0
    {
      var r := Find(expenses, OwnedBy(username));
      forall e ensures multiset(r)[e] == if e.username == username then multiset(expenses)[e] else 0 {
        FindMultiset(expenses, OwnedBy(username), e);
      }
      r
    }

    /**
     * `GET /api/expenses/dashboard/pie/:identifier`: 400 without both dates,
     * 404 for an unknown user; otherwise always the pie of the user's records
     * in the window.
     */
    function Pie(identifier: string, startDate: Option<CivilDate>, endDate: Option<CivilDate>): (r: Reply<seq<PieSlice>>)
      reads this
      ensures (startDate.None? || endDate.None?) ==> r == Fail(BadRequest)
      ensures startDate.Some? && endDate.Some? && Resolve(identifier).None? ==> r == Fail(NotFound)
      ensures r.Ok? <==> startDate.Some? && endDate.Some? && Resolve(identifier).Some?
      ensures r.Ok? ==> r.value == PieData(Find(expenses, DayWindow(Resolve(identifier).value, startDate.value, endDate.value)))
    {
      if startDate.None? || endDate.None? then Fail(BadRequest)
      else match Resolve(identifier)
        case None => Fail(NotFound)
        case Some(u) => Ok(PieData(Find(expenses, DayWindow(u, startDate.value, endDate.value))))
    }

    /**
     * `GET /api/expenses/dashboard/monthly/:identifier`: 400 without a year,
     * 404 for an unknown user; otherwise the user's records of that year,
     * totalled per month with empty months left out, rounded to cents, in
     * month order and named `Jan` to `Dec`.
     */
    function Monthly(identifier: string, year: Option<int>): (r: Reply<seq<MonthAmount>>)
      reads this
      ensures year.None? ==> r == Fail(BadRequest)
      ensures year.Some? && Resolve(identifier).None? ==> r == Fail(NotFound)
      ensures r.Ok? <==> year.Some? && Resolve(identifier).Some?
      ensures r.Ok? ==> r.value == NameMonths(MonthlyBuckets(Find(expenses, YearWindow(Resolve(identifier).value, year.value))))
      ensures r.Ok? ==> |r.value| <= 12
    {
      if year.None? then Fail(BadRequest)
      else match Resolve(identifier)
        case None => Fail(NotFound)
        case Some(u) =>
          var buckets := MonthlyBuckets(Find(expenses, YearWindow(u, year.value)));
          MonthlyExact(Find(expenses, YearWindow(u, year.value)));
          BucketsAtMostTwelve(buckets);
          Ok(NameMonths(buckets))
    }

    /** `profile.save()` of a loaded profile: the document at `i` is replaced; its email stays. */
    method ReplaceProfile(i: nat, p: Profile)
      requires Valid() && i < |profiles| && p.email == profiles[i].email
      modifies this
      ensures Valid()
      ensures profiles == old(profiles)[i := p]
      ensures accounts == old(accounts) && expenses == old(expenses) && nextId == old(nextId)
    {
      profiles := profiles[i := p];
      assert forall j :: 0 <= j < |profiles| ==> profiles[j].email == old(profiles)[j].email;
    }

    // ------------------------------------------------------------ expense writes

    /** Store one more record under the next id. */
    method Append(e: Expense)
      requires Valid() && ValidExpense(e) && e.id == nextId
      modifies this
      ensures Valid()
      ensures expenses == old(expenses) + [e] && nextId == old(nextId) + 1
      ensures accounts == old(accounts) && profiles == old(profiles)
    {
      expenses := expenses + [e];
      nextId := nextId + 1;
    }

    /**
     * `POST /api/expenses`: 400 for an empty identifier or category or a
     * missing or zero amount, 404 for an unknown user, 500 when the schema
     * rejects the amount; otherwise one record is appended, owned by the
     * resolved username and dated `date` or now.
     */
    method AddExpense(identifier: string, category: string, amount: Option<real>, date: Option<Stamp>, now: Stamp)
      returns (r: Reply<Expense>)
      requires Valid()
      modifies this
      ensures Valid()
      ensures r == Fail(BadRequest) <==> AddFieldsMissing(identifier, category, amount)
      ensures r == Fail(NotFound) <==> identifier != "" && category != "" && amount.Some? && amount.value != 0.0
                                       && Resolve(identifier).None?
      ensures r == Fail(ServerError) <==> identifier != "" && category != "" && amount.Some? && amount.value < 0.0
                                          && Resolve(identifier).Some?
      ensures r.Ok? <==> !AddFieldsMissing(identifier, category, amount) && Resolve(identifier).Some?
                         && amount.value >= 0.0
      ensures r.Fail? ==> expenses == old(expenses) && nextId == old(nextId)
      ensures r.Ok? ==> r.value == CreateExpense(old(nextId), Resolve(identifier).value, category, amount.value, date, now).value
                        && expenses == old(expenses) + [r.value] && nextId == old(nextId) + 1
      ensures accounts == old(accounts) && profiles == old(profiles)
    {
      if AddFieldsMissing(identifier, category, amount) {
        return Fail(BadRequest);
      }
      var username := Resolve(identifier);
      if username.None? {
        return Fail(NotFound);
      }
      var created := CreateExpense(nextId, username.value, category, amount.value, date, now);
      if created.None? {
        return Fail(ServerError);
      }
      Append(created.value);
      r := Ok(created.value);
    }

    /**
     * `PUT /api/expenses/:expenseId`: 500 when the new amount breaks `min: 0`,
     * 404 for an unknown id; otherwise only the supplied fields of that record
     * change (category if non-empty, amount if given, date if given).
     */
    method UpdateExpense(id: nat, category: string, amount: Option<real>, date: Option<Stamp>, now: Stamp)
      returns (r: Reply<Expense>)
      requires Valid()
      modifies this
      ensures Valid()
      ensures r == Fail(ServerError) <==> amount.Some? && amount.value < 0.0
      ensures r == Fail(NotFound) <==> !(amount.Some? && amount.value < 0.0) && FirstWhere(old(expenses), HasId(id)).None?
      ensures r.Ok? <==> !(amount.Some? && amount.value < 0.0) && FirstWhere(old(expenses), HasId(id)).Some?
      ensures r.Fail? ==> expenses == old(expenses)
      ensures r.Ok? ==> var i := FirstWhere(old(expenses), HasId(id)).value;
                        r.value == Updated(old(expenses)[i], category, amount, date, now)
                        && expenses == old(expenses)[i := r.value]
      ensures accounts == old(accounts) && profiles == old(profiles) && nextId == old(nextId)
    {
      if amount.Some? && amount.value < 0.0 {
        return Fail(ServerError);
      }
      var found := FirstWhere(expenses, HasId(id));
      if found.None? {
        return Fail(NotFound);
      }
      var e := Updated(expenses[found.value], category, amount, date, now);
      expenses := expenses[found.value := e];
      r := Ok(e);
    }

    /** `DELETE /api/expenses/:expenseId`: removes exactly the record with that id, or answers 404. */
    method DeleteExpense(id: nat) returns (r: Reply<Expense>)
      requires Valid()
      modifies this
      ensures Valid()
      ensures r.Fail? <==> forall i :: 0 <= i < |old(expenses)| ==> old(expenses)[i].id != id
      ensures r.Fail? ==> r.status == NotFound && expenses == old(expenses)
      ensures r.Ok? ==> exists i :: 0 <= i < |old(expenses)| && old(expenses)[i] == r.value
                          && r.value.id == id && expenses == RemoveAt(old(expenses), i)
      ensures r.Ok? ==> forall i :: 0 <= i < |expenses| ==> expenses[i].id != id
      ensures accounts == old(accounts) && profiles == old(profiles) && nextId == old(nextId)
    {
      var found := FirstWhere(expenses, HasId(id));
      if found.None? {
        return Fail(NotFound);
      }
      var i := found.value;
      var e := expenses[i];
      expenses := RemoveAt(expenses, i);
      r := Ok(e);
    }

    /**
     * `DELETE /api/expenses/category/:identifier/:category`: 404 for an
     * unknown user, 500 when the second `decodeURIComponent` of the category
     * throws; otherwise every record of that user in the decoded category is
     * removed and every other record kept, in order. Answers the count removed.
     */
    method DeleteCategory(identifier: string, category: string) returns (r: Reply<nat>)
      requires Valid()
      modifies this
      ensures Valid()
      ensures r == Fail(NotFound) <==> Resolve(identifier).None?
      ensures r == Fail(ServerError) <==> Resolve(identifier).Some? && Uri.DecodeUriComponent(category).None?
      ensures r.Ok? <==> Resolve(identifier).Some? && Uri.DecodeUriComponent(category).Some?
      ensures r.Fail? ==> expenses == old(expenses)
      ensures r.Ok? ==> var q := OwnedIn(Resolve(identifier).value, Uri.DecodeUriComponent(category).value);
                        expenses == Reject(old(expenses), q) && r.value == |Find(old(expenses), q)|
                        && |expenses| + r.value == |old(expenses)|
      ensures accounts == old(accounts) && profiles == old(profiles) && nextId == old(nextId)
    {
      var username := Resolve(identifier);
      if username.None? {
        return Fail(NotFound);
      }
      var decoded := Uri.DecodeUriComponent(category);
      if decoded.None? {
        return Fail(ServerError);
      }
      var q := OwnedIn(username.value, decoded.value);
      FindRejectSplit(expenses, q);
      RejectKeepsDistinctIds(expenses, q);
      var removed := |Find(expenses, q)|;
      expenses := Reject(expenses, q);
      r := Ok(removed);
    }

    /**
     * `PUT /api/expenses/category/:identifier/:oldCategory`: 400 for an empty
     * new name, 404 for an unknown user, 500 when the second
     * `decodeURIComponent` of the old name throws; otherwise every record of
     * that user in the decoded old category takes the new name. Answers the
     * count matched.
     */
    method RenameCategory(identifier: string, oldCategory: string, newCategory: string, now: Stamp) returns (r: Reply<nat>)
      requires Valid()
      modifies this
      ensures Valid()
      ensures r == Fail(BadRequest) <==> newCategory == ""
      ensures r == Fail(NotFound) <==> newCategory != "" && Resolve(identifier).None?
      ensures r == Fail(ServerError) <==> newCategory != "" && Resolve(identifier).Some?
                                          && Uri.DecodeUriComponent(oldCategory).None?
      ensures r.Ok? <==> newCategory != "" && Resolve(identifier).Some? && Uri.DecodeUriComponent(oldCategory).Some?
      ensures r.Fail? ==> expenses == old(expenses)
      ensures r.Ok? ==> var q := OwnedIn(Resolve(identifier).value, Uri.DecodeUriComponent(oldCategory).value);
                        expenses == SetCategory(old(expenses), q, newCategory, now) && r.value == |Find(old(expenses), q)|
      ensures accounts == old(accounts) && profiles == old(profiles) && nextId == old(nextId)
    {
      if newCategory == "" {
        return Fail(BadRequest);
      }
      var username := Resolve(identifier);
      if username.None? {
        return Fail(NotFound);
      }
      var decoded := Uri.DecodeUriComponent(oldCategory);
      if decoded.None? {
        return Fail(ServerError);
      }
      var q := OwnedIn(username.value, decoded.value);
      var matched := |Find(expenses, q)|;
      expenses := SetCategory(expenses, q, newCategory, now);
      r := Ok(matched);
    }
  }

  lemma BucketsAtMostTwelve(bs: seq<MonthBucket>)
    requires forall i :: 0 <= i < |bs| ==> 1 <= bs[i].monthNumber <= 12
    requires forall i, j :: 0 <= i < j < |bs| ==> bs[i].monthNumber < bs[j].monthNumber
    ensures |bs| <= 12
  {
    if |bs| > 12 {
      StrictlyIncreasingSpread(bs, 12);
    }
  }

  lemma {:induction false} StrictlyIncreasingSpread(bs: seq<MonthBucket>, k: nat)
    requires forall i :: 0 <= i < |bs| ==> 1 <= bs[i].monthNumber <= 12
    requires forall i, j :: 0 <= i < j < |bs| ==> bs[i].monthNumber < bs[j].monthNumber
    requires k < |bs|
    ensures bs[k].monthNumber >= k + 1
  {
    if k > 0 {
      StrictlyIncreasingSpread(bs, k - 1);
    }
  }
}
