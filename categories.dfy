/*
 * The categories page (myreact-app/src/components/Categories.jsx): the
 * checks of the add, edit and date-range forms, the date format it shows,
 * the case-insensitive category filter, the grouping of a date-range search
 * by category, and the cache of each category's expense list.
 */
module Categories {
  import opened Wrappers
  import opened Calendar
  import opened Seqs
  import opened Text
  import opened Records
  import opened Aggregation
  import opened Ledger
  import opened Periods

  /** The identifier the page sends: the stored one, or "defaultUser" when it is missing or empty. */
  function PageIdentifier(stored: Option<string>): (id: string)
    ensures id != ""
    ensures stored.Some? && stored.value != "" ==> id == stored.value
  {
    if stored.None? || stored.value == "" then "defaultUser" else stored.value
  }

  // ---------------------------------------------------------------- dates

  /** `formatDate`: the day and month padded to two digits, then the year, separated by '/'. */
  function FormatDate(d: CivilDate): (s: string)
    ensures |s| >= 7
  {
    Pad2(d.day) + "/" + Pad2(d.month) + "/" + IntToString(d.year)
  }

  /** The text `formatDate` produces reads back as the day, the month and the year it shows. */
  lemma FormatDateReadsBack(d: CivilDate)
    ensures var s := FormatDate(d);
      s[2] == '/' && s[5] == '/' &&
      AllDigits(s[..2]) && DigitsValue(s[..2]) == d.day &&
      AllDigits(s[3..5]) && DigitsValue(s[3..5]) == d.month &&
      (d.year >= 0 ==> AllDigits(s[6..]) && DigitsValue(s[6..]) == d.year) &&
      (d.year < 0 ==> s[6] == '-' && AllDigits(s[7..]) && DigitsValue(s[7..]) == -d.year)
  {
    var s := FormatDate(d);
    var dd, mm, yy := Pad2(d.day), Pad2(d.month), IntToString(d.year);
    assert |dd| == 2 && |mm| == 2;
    assert s == dd + "/" + mm + "/" + yy;
    assert s[..2] == dd;
    assert s[3..5] == mm;
    assert s[6..] == yy;
  }

  // ---------------------------------------------------------------- form checks

  const MissingFields: string := "Please enter category name, amount, and date"
  const BadAmount: string := "Please enter a valid amount"

  /** The outcome of the add or edit form's checks: the error shown, or the amount sent. */
  datatype FormCheck = Rejected(message: string) | Accepted(amount: real)

  /**
   * The checks `handleAddCategory` and `handleSaveEdit` share: the three
   * fields must not be blank after `trim()`, then the amount must parse
   * (`parsed` is `parseFloat` of the amount text, `None` for NaN) and must
   * not be negative.  Zero passes.
   */
  function CheckExpenseForm(name: string, amountText: string, dateText: string, parsed: Option<real>): (r: FormCheck)
    ensures Trim(name) == [] || Trim(amountText) == [] || Trim(dateText) == [] ==> r == Rejected(MissingFields)
    ensures r.Accepted? <==> Trim(name) != [] && Trim(amountText) != [] && Trim(dateText) != [] &&
                             parsed.Some? && parsed.value >= 0.0
    ensures r.Accepted? ==> r.amount == parsed.value
    ensures r.Rejected? ==> r.message == MissingFields || r.message == BadAmount
  {
    if Trim(name) == [] || Trim(amountText) == [] || Trim(dateText) == [] then Rejected(MissingFields)
    else if parsed.None? || parsed.value < 0.0 then Rejected(BadAmount)
    else Accepted(parsed.value)
  }

  /** The "missing fields" error shows exactly when some field consists of whitespace only. */
  lemma MissingFieldsIffBlank(name: string, amountText: string, dateText: string, parsed: Option<real>)
    ensures CheckExpenseForm(name, amountText, dateText, parsed) == Rejected(MissingFields) <==>
              (forall i :: 0 <= i < |name| ==> IsJsSpace(name[i])) ||
              (forall i :: 0 <= i < |amountText| ==> IsJsSpace(amountText[i])) ||
              (forall i :: 0 <= i < |dateText| ==> IsJsSpace(dateText[i]))
  {
    TrimIsEmptyIffBlank(name);
    TrimIsEmptyIffBlank(amountText);
    TrimIsEmptyIffBlank(dateText);
  }

  /**
   * What the add form sends meets the server's add route: of the forms the
   * page accepts, the route turns down as missing fields exactly those with
   * amount zero, so adding a zero expense always ends in the page's
   * "Failed to add category".
   */
  lemma AcceptedFormMeetsAddRoute(stored: Option<string>, name: string, amountText: string, dateText: string,
                                  parsed: Option<real>)
    ensures var c := CheckExpenseForm(name, amountText, dateText, parsed);
      c.Accepted? ==> (AddFieldsMissing(PageIdentifier(stored), name, Some(c.amount)) <==> c.amount == 0.0)
  {
    var c := CheckExpenseForm(name, amountText, dateText, parsed);
    if c.Accepted? && name == [] {
      TrimIsEmptyIffBlank(name);
      assert false;
    }
  }

  // ---------------------------------------------------------------- date-range search

  const NoMatches: string := "No expenses found for the selected date range"
  const SearchFailed: string := "Failed to fetch expenses for the selected date range"

  /** The date-range search as the page keeps it. */
  datatype DateSearchState = DateSearchState(error: string, active: bool, results: seq<Expense>)

  /**
   * `handleDateRangeSearch` from state `st`: a failed check only sets its
   * message; a failed request sets its message and empties the results; an
   * answer becomes the results, the search turns active, and an empty answer
   * shows "No expenses found".  `reply` is the server's answer for the period.
   */
  function SearchDateRange(st: DateSearchState, startDate: Option<CivilDate>, endDate: Option<CivilDate>,
                           reply: Option<seq<Expense>>): (r: DateSearchState)
    ensures RangeCheck(startDate, endDate).Invalid? ==> r == st.(error := RangeCheck(startDate, endDate).message)
    ensures RangeCheck(startDate, endDate).Period? && reply.None? ==> r == st.(error := SearchFailed, results := [])
    ensures RangeCheck(startDate, endDate).Period? && reply.Some? ==>
              r.active && r.results == reply.value && (r.error == NoMatches <==> reply.value == []) &&
              (reply.value != [] ==> r.error == "")
  {
    match RangeCheck(startDate, endDate)
    case Invalid(message) => st.(error := message)
    case Period(_, _) =>
      match reply
      case None => st.(error := SearchFailed, results := [])
      case Some(data) => DateSearchState(if data == [] then NoMatches else "", true, data)
  }

  /** `handleClearDateSearch`: no error, inactive, no results. */
  function ClearDateSearch(st: DateSearchState): (r: DateSearchState)
    ensures !r.active && r.results == [] && r.error == ""
  {
    DateSearchState("", false, [])
  }

  // ---------------------------------------------------------------- filter

  /** `cat.name.toLowerCase().includes(filter.toLowerCase())`. */
  function NameMatches(filter: string): CategorySummary -> bool
  {
    (c: CategorySummary) => Contains(Lower(c.name), Lower(filter))
  }

  /** `filteredCategories`: the categories whose name contains the filter, ignoring case, in order. */
  function FilteredCategories(cs: seq<CategorySummary>, filter: string): (r: seq<CategorySummary>)
    ensures forall i :: 0 <= i < |r| ==> r[i] in cs && Contains(Lower(r[i].name), Lower(filter))
    ensures forall i :: 0 <= i < |cs| && Contains(Lower(cs[i].name), Lower(filter)) ==> cs[i] in r
  {
    Filter(cs, NameMatches(filter))
  }

  /** An empty filter shows every category, in the server's order. */
  lemma EmptyFilterKeepsAll(cs: seq<CategorySummary>)
    ensures FilteredCategories(cs, "") == cs
  {
    forall i | 0 <= i < |cs| ensures NameMatches("")(cs[i]) {
      ContainsEmpty(Lower(cs[i].name));
    }
    FilterAll(cs, NameMatches(""));
  }

  lemma LowerIdempotent(s: string)
    ensures Lower(Lower(s)) == Lower(s)
  {
  }

  lemma {:induction false} FilterAgrees<T>(s: seq<T>, p: T -> bool, q: T -> bool)
    requires forall i :: 0 <= i < |s| ==> p(s[i]) == q(s[i])
    ensures Filter(s, p) == Filter(s, q)
  {
    if s != [] {
      FilterAgrees(s[1..], p, q);
    }
  }

  /** The filter ignores the case of what is typed: typing it in lower case shows the same list. */
  lemma FilterIgnoresCase(cs: seq<CategorySummary>, filter: string)
    ensures FilteredCategories(cs, Lower(filter)) == FilteredCategories(cs, filter)
  {
    LowerIdempotent(filter);
    FilterAgrees(cs, NameMatches(Lower(filter)), NameMatches(filter));
  }

  // ---------------------------------------------------------------- grouping the search results

  /** The categories of `es` in order of first appearance: the keys of `groupedDateResults`. */
  function GroupNames(es: seq<Expense>): (r: seq<string>)
    ensures Distinct(r)
    ensures forall i :: 0 <= i < |es| ==> es[i].category in r
  {
    if es == [] then []
    else
      var init := es[..|es| - 1];
      var rest := GroupNames(init);
      assert forall i :: 0 <= i < |init| ==> init[i] == es[i];
      if es[|es| - 1].category in rest then rest else rest + [es[|es| - 1].category]
  }

  /** Every group name is the category of some result. */
  lemma {:induction false} GroupNamesPresent(es: seq<Expense>, c: string)
    requires c in GroupNames(es)
    ensures InCategory(es, c) != []
  {
    var init := es[..|es| - 1];
    if c in GroupNames(init) {
      GroupNamesPresent(init, c);
      InCategoryMembers(init, c);
      var x := InCategory(init, c)[0];
      assert x in init && x.category == c;
      var k :| 0 <= k < |init| && init[k] == x;
      assert es[k] == x;
    } else {
      assert es[|es| - 1].category == c;
    }
    InCategoryMembers(es, c);
    var k :| 0 <= k < |es| && es[k].category == c;
    assert es[k] in InCategory(es, c);
  }

  /** The bucket of `c` after one more record. */
  lemma {:induction false} InCategorySnoc(es: seq<Expense>, x: Expense, c: string)
    ensures InCategory(es + [x], c) == InCategory(es, c) + (if x.category == c then [x] else [])
  {
    if es == [] {
      assert es + [x] == [x];
      assert [x][1..] == [];
    } else {
      assert (es + [x])[1..] == es[1..] + [x];
      InCategorySnoc(es[1..], x, c);
    }
  }

  lemma {:induction false} GroupNamesSnoc(es: seq<Expense>, x: Expense)
    ensures GroupNames(es + [x]) ==
              if x.category in GroupNames(es) then GroupNames(es) else GroupNames(es) + [x.category]
  {
    assert (es + [x])[..|es + [x]| - 1] == es;
  }

  /** A category with no group name has no results. */
  lemma {:induction false} UnnamedGroupEmpty(es: seq<Expense>, c: string)
    requires c !in GroupNames(es)
    ensures InCategory(es, c) == []
  {
    if InCategory(es, c) != [] {
      CategoryNamed(es, c);
    }
  }

  /** A category with results has a group name. */
  lemma CategoryNamed(es: seq<Expense>, c: string)
    requires InCategory(es, c) != []
    ensures c in GroupNames(es)
  {
    InCategoryMembers(es, c);
    var x := InCategory(es, c)[0];
    assert x in es;
    var k :| 0 <= k < |es| && es[k] == x;
  }

  /**
   * `groupedDateResults`: the results bucketed by category, each bucket in
   * the order of the results, the buckets in order of first appearance.
   */
  method GroupByCategory(results: seq<Expense>) returns (names: seq<string>, groups: map<string, seq<Expense>>)
    ensures names == GroupNames(results)
    ensures forall c :: c in groups <==> c in names
    ensures forall c :: c in groups ==> groups[c] == InCategory(results, c)
  {
    names := [];
    groups := map[];
    var i := 0;
    while i < |results|
      invariant 0 <= i <= |results|
      invariant names == GroupNames(results[..i])
      invariant forall c :: c in groups <==> c in names
      invariant forall c :: c in groups ==> groups[c] == InCategory(results[..i], c)
    {
      assert results[..i + 1] == results[..i] + [results[i]];
      names, groups := PushResult(names, groups, results[..i], results[i]);
      i := i + 1;
    }
    assert results[..i] == results;
  }

  /** One step of the reduce: open the bucket of the record's category if needed, then append the record. */
  method PushResult(names: seq<string>, groups: map<string, seq<Expense>>, ghost done: seq<Expense>, e: Expense)
    returns (names': seq<string>, groups': map<string, seq<Expense>>)
    requires names == GroupNames(done)
    requires forall c :: c in groups <==> c in names
    requires forall c :: c in groups ==> groups[c] == InCategory(done, c)
    ensures names' == GroupNames(done + [e])
    ensures forall c :: c in groups' <==> c in names'
    ensures forall c :: c in groups' ==> groups'[c] == InCategory(done + [e], c)
  {
    GroupNamesSnoc(done, e);
    forall c ensures InCategory(done + [e], c) == InCategory(done, c) + (if e.category == c then [e] else []) {
      InCategorySnoc(done, e, c);
    }
    names', groups' := names, groups;
    if e.category !in groups' {
      UnnamedGroupEmpty(done, e.category);
      groups' := groups'[e.category := []];
      names' := names' + [e.category];
    }
    groups' := groups'[e.category := groups'[e.category] + [e]];
  }

  /**
   * The groups partition the results: each result sits in the group of its
   * own category, and a group holds only results of that category.
   */
  lemma GroupsPartitionResults(results: seq<Expense>, c: string)
    requires c in GroupNames(results)
    ensures InCategory(results, c) != []
    ensures forall i :: 0 <= i < |InCategory(results, c)| ==>
              InCategory(results, c)[i] in results && InCategory(results, c)[i].category == c
    ensures forall i :: 0 <= i < |results| && results[i].category == c ==> results[i] in InCategory(results, c)
  {
    GroupNamesPresent(results, c);
    InCategoryMembers(results, c);
  }

  // ---------------------------------------------------------------- the expense-list cache

  /** What a category's card shows under its header, from its cache entry. */
  datatype ListView = LoadingExpenses | Items(expenses: seq<Expense>) | NoExpenses

  /** A missing entry shows "Loading expenses..."; an empty one "No expenses found". */
  function ListViewOf(entries: map<string, seq<Expense>>, name: string): (v: ListView)
    ensures v == LoadingExpenses <==> name !in entries
    ensures v.Items? ==> name in entries && v.expenses == entries[name] && v.expenses != []
  {
    if name !in entries then LoadingExpenses
    else if entries[name] == [] then NoExpenses
    else Items(entries[name])
  }

  /** The cache after storing each answer in turn; a failed request stores an empty list. */
  function Refreshed(entries: map<string, seq<Expense>>, names: seq<string>, replies: seq<Option<seq<Expense>>>)
    : (r: map<string, seq<Expense>>)
    requires |names| == |replies|
    ensures forall k :: k in r <==> k in entries || k in names
    ensures forall k :: k in entries && k !in names ==> r[k] == entries[k]
    decreases |names|
  {
    if names == [] then entries
    else Refreshed(entries[names[0] := replies[0].GetOr([])], names[1..], replies[1..])
  }

  /** The cache with some keys deleted. */
  function Without(entries: map<string, seq<Expense>>, gone: set<string>): (r: map<string, seq<Expense>>)
    ensures forall k :: k in r <==> k in entries && k !in gone
    ensures forall k :: k in r ==> r[k] == entries[k]
  {
    entries - gone
  }

  /** `categoryExpenses`: the expense list fetched for each category, by name. */
  class CategoryCache {
    var entries: map<string, seq<Expense>>

    constructor ()
      ensures entries == map[]
    {
      entries := map[];
    }

    /** `fetchCategoryExpenses`: the answer, or an empty list when the request fails. */
    method Store(name: string, reply: Option<seq<Expense>>)
      modifies this
      ensures entries == old(entries)[name := reply.GetOr([])]
    {
      entries := entries[name := reply.GetOr([])];
    }

    /** The loop of `fetchCategories`: each listed category's expenses, fetched one after another. */
    method Refresh(names: seq<string>, replies: seq<Option<seq<Expense>>>)
      requires |names| == |replies|
      modifies this
      ensures entries == Refreshed(old(entries), names, replies)
    {
      var i := 0;
      while i < |names|
        invariant 0 <= i <= |names|
        invariant Refreshed(entries, names[i..], replies[i..]) == Refreshed(old(entries), names, replies)
      {
        assert names[i..][1..] == names[i + 1..];
        assert replies[i..][1..] == replies[i + 1..];
        Store(names[i], replies[i]);
        i := i + 1;
      }
    }

    /** The cache update of `handleDeleteCategory`: the deleted category's entry goes. */
    method ForgetCategory(name: string)
      modifies this
      ensures entries == Without(old(entries), {name})
    {
      var updated := entries;
      updated := updated - {name};
      entries := updated;
    }

    /**
     * The cache update of `handleSaveEdit`: the entry of the category that
     * was edited goes, and that of the new name when the name changed.
     */
    method ForgetEdited(oldName: string, editedName: string)
      modifies this
      ensures entries == Without(old(entries), {oldName, editedName})
    {
      var updated := entries;
      updated := updated - {oldName};
      if editedName != oldName {
        updated := updated - {editedName};
      }
      entries := updated;
    }
  }

  /**
   * Saving an edit refreshes every category's list and only then deletes the
   * entries of the old and new names, so both categories, when still listed,
   * are left showing "Loading expenses..." until the next refresh, while the
   * other listed categories show what was just fetched.
   */
  lemma EditLeavesCategoriesUnloaded(entries: map<string, seq<Expense>>, names: seq<string>,
                                     replies: seq<Option<seq<Expense>>>, oldName: string, editedName: string, k: string)
    requires |names| == |replies|
    ensures var after := Without(Refreshed(entries, names, replies), {oldName, editedName});
      (k == oldName || k == editedName ==> ListViewOf(after, k) == LoadingExpenses) &&
      (k in names && k != oldName && k != editedName ==> ListViewOf(after, k) != LoadingExpenses)
  {
  }
}
