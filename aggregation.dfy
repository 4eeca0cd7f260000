/**
 * The read side of the ledger (backend/server.js): MongoDB `find` filters,
 * `.sort({date: -1})`, and the `$group`/`$sum`/`$max`/`$round`/`$sort`
 * pipelines behind the totals, the category summary, the pie chart and the
 * monthly series, all as functions over a sequence of expense records.
 */
module Aggregation {
  import opened Wrappers
  import opened Calendar
  import opened Seqs
  import opened Records

  // ---------------------------------------------------------------- sums and order

  function AmountOf(e: Expense): real { e.amount }

  /** `$sum: '$amount'` over a set of records. */
  function Total(es: seq<Expense>): real
  {
    SumBy(es, AmountOf)
  }

  lemma TotalAppend(a: seq<Expense>, b: seq<Expense>)
    ensures Total(a + b) == Total(a) + Total(b)
  {
    SumByAppend(a, b, AmountOf);
  }

  lemma TotalOne(x: Expense)
    ensures Total([x]) == x.amount
  {
    assert [x][1..] == [];
    assert SumBy([x], AmountOf) == AmountOf([x][0]) + SumBy([x][1..], AmountOf);
  }

  /** Stored amounts are never negative, so neither is any total of them. */
  lemma TotalNonNegative(es: seq<Expense>)
    requires forall i :: 0 <= i < |es| ==> ValidExpense(es[i])
    ensures Total(es) >= 0.0
  {
    SumByNonNegative(es, AmountOf);
  }

  function DateKey(e: Expense): real { Rank(e.date) as real }

  /** `.sort({ date: -1 })`: the same records, newest first. */
  function NewestFirst(es: seq<Expense>): (r: seq<Expense>)
    ensures multiset(r) == multiset(es)
    ensures forall i, j :: 0 <= i < j < |r| ==> Rank(r[i].date) >= Rank(r[j].date)
  {
    var r := SortDesc(es, DateKey);
    assert forall i, j :: 0 <= i < j < |r| ==> DateKey(r[i]) >= DateKey(r[j]);
    r
  }

  // ---------------------------------------------------------------- filters

  /** A filter document: `{ username, category?, date: { $gte, $lte }? }`. */
  datatype Query = Query(username: string, category: Option<string>, window: Option<(Stamp, Stamp)>)

  predicate Matches(e: Expense, q: Query)
  {
    e.username == q.username
    && (q.category.Some? ==> e.category == q.category.value)
    && (q.window.Some? ==> InWindow(e.date, q.window.value.0, q.window.value.1))
  }

  /** `find(q)` in natural (insertion) order. */
  function Find(es: seq<Expense>, q: Query): (r: seq<Expense>)
    ensures |r| <= |es|
    ensures forall i :: 0 <= i < |r| ==> r[i] in es && Matches(r[i], q)
    ensures forall i :: 0 <= i < |es| && Matches(es[i], q) ==> es[i] in r
  {
    if es == [] then []
    else (if Matches(es[0], q) then [es[0]] else []) + Find(es[1..], q)
  }

  /** What `deleteMany(q)` leaves behind, in order. */
  function Reject(es: seq<Expense>, q: Query): (r: seq<Expense>)
    ensures |r| <= |es|
    ensures forall i :: 0 <= i < |r| ==> r[i] in es && !Matches(r[i], q)
    ensures forall i :: 0 <= i < |es| && !Matches(es[i], q) ==> es[i] in r
  {
    if es == [] then []
    else (if Matches(es[0], q) then [] else [es[0]]) + Reject(es[1..], q)
  }

  /** `find` keeps every matching record with its multiplicity and nothing else. */
  lemma {:induction false} FindMultiset(es: seq<Expense>, q: Query, e: Expense)
    ensures multiset(Find(es, q))[e] == if Matches(e, q) then multiset(es)[e] else 0
  {
    if es != [] {
      FindMultiset(es[1..], q, e);
      var x := es[0];
      var rest := Find(es[1..], q);
      assert multiset(es) == multiset{x} + multiset(es[1..]) by {
        assert es == [x] + es[1..];
      }
      if Matches(x, q) {
        assert multiset(Find(es, q)) == multiset{x} + multiset(rest) by {
          assert Find(es, q) == [x] + rest;
        }
      } else {
        assert Find(es, q) == rest;
      }
    }
  }

  lemma {:induction false} RejectMultiset(es: seq<Expense>, q: Query, e: Expense)
    ensures multiset(Reject(es, q))[e] == if Matches(e, q) then 0 else multiset(es)[e]
  {
    if es != [] {
      RejectMultiset(es[1..], q, e);
      var x := es[0];
      var rest := Reject(es[1..], q);
      assert multiset(es) == multiset{x} + multiset(es[1..]) by {
        assert es == [x] + es[1..];
      }
      if Matches(x, q) {
        assert Reject(es, q) == rest;
      } else {
        assert multiset(Reject(es, q)) == multiset{x} + multiset(rest) by {
          assert Reject(es, q) == [x] + rest;
        }
      }
    }
  }

  /** A query splits the records in two: the matching ones and the rest. */
  lemma {:induction false} FindRejectSplit(es: seq<Expense>, q: Query)
    ensures |Find(es, q)| + |Reject(es, q)| == |es|
    ensures Total(Find(es, q)) + Total(Reject(es, q)) == Total(es)
  {
    if es != [] {
      FindRejectSplit(es[1..], q);
      var a := if Matches(es[0], q) then [es[0]] else [];
      var b := if Matches(es[0], q) then [] else [es[0]];
      TotalAppend(a, Find(es[1..], q));
      TotalAppend(b, Reject(es[1..], q));
    }
  }

  /** The user's records dated within `[start of first, end of last]`. */
  function DayWindow(username: string, first: CivilDate, last: CivilDate): Query
  {
    Query(username, None, Some((StartOfDay(first), EndOfDay(last))))
  }

  /** A window whose start lies after its end matches nothing: the answer is empty, not an error. */
  lemma {:induction false} ReversedWindowEmpty(es: seq<Expense>, username: string, first: CivilDate, last: CivilDate)
    requires !DateLe(first, last)
    ensures Find(es, DayWindow(username, first, last)) == []
  {
    if es != [] {
      ReversedWindowEmpty(es[1..], username, first, last);
      InDaysByDate(es[0].date, first, last);
    }
  }

  /** `find(q).sort({ date: -1 })`: exactly the matching records, newest first. */
  function FindNewestFirst(es: seq<Expense>, q: Query): (r: seq<Expense>)
    ensures forall i :: 0 <= i < |r| ==> r[i] in es && Matches(r[i], q)
    ensures forall e :: multiset(r)[e] == (if Matches(e, q) then multiset(es)[e] else 0)
    ensures forall i, j :: 0 <= i < j < |r| ==> Rank(r[i].date) >= Rank(r[j].date)
  {
    var r := NewestFirst(Find(es, q));
    forall e ensures multiset(r)[e] == (if Matches(e, q) then multiset(es)[e] else 0) {
      FindMultiset(es, q, e);
    }
    forall i | 0 <= i < |r| ensures r[i] in es && Matches(r[i], q) {
      assert r[i] in multiset(r);
    }
    r
  }

  // ---------------------------------------------------------------- single-group totals

  /** `$group: { _id: null, totalAmount: { $sum: '$amount' } }`: no row at all when nothing matched. */
  function GroupAll(es: seq<Expense>): (rows: seq<real>)
    ensures |rows| <= 1
    ensures rows == [] <==> es == []
    ensures es != [] ==> rows == [Total(es)]
  {
    if es == [] then [] else [Total(es)]
  }

  /** `rows.length > 0 ? rows[0].totalAmount : 0`. */
  function FirstOrZero(rows: seq<real>): real
  {
    if |rows| > 0 then rows[0] else 0.0
  }

  /** The today/month totals are the plain sum of the matched records, 0 when none matched. */
  lemma MatchedTotal(es: seq<Expense>)
    ensures FirstOrZero(GroupAll(es)) == Total(es)
    ensures es == [] ==> FirstOrZero(GroupAll(es)) == 0.0
  {
  }

  // ---------------------------------------------------------------- grouping by category

  /** The records of one `$group` bucket keyed by `'$category'`, in order. */
  function InCategory(es: seq<Expense>, c: string): (r: seq<Expense>)
    ensures |r| <= |es|
    ensures forall i :: 0 <= i < |r| ==> r[i] in es && r[i].category == c
  {
    if es == [] then []
    else (if es[0].category == c then [es[0]] else []) + InCategory(es[1..], c)
  }

  function OutsideCategory(es: seq<Expense>, c: string): seq<Expense>
  {
    if es == [] then []
    else (if es[0].category == c then [] else [es[0]]) + OutsideCategory(es[1..], c)
  }

  lemma {:induction false} CategorySplit(es: seq<Expense>, c: string)
    ensures |InCategory(es, c)| + |OutsideCategory(es, c)| == |es|
    ensures Total(InCategory(es, c)) + Total(OutsideCategory(es, c)) == Total(es)
  {
    if es != [] {
      CategorySplit(es[1..], c);
      var a := if es[0].category == c then [es[0]] else [];
      var b := if es[0].category == c then [] else [es[0]];
      TotalAppend(a, InCategory(es[1..], c));
      TotalAppend(b, OutsideCategory(es[1..], c));
    }
  }

  /** The members of bucket `c`: exactly the records whose category is `c`. */
  lemma {:induction false} InCategoryMembers(es: seq<Expense>, c: string)
    ensures forall i :: 0 <= i < |InCategory(es, c)| ==> InCategory(es, c)[i] in es && InCategory(es, c)[i].category == c
    ensures forall i :: 0 <= i < |es| && es[i].category == c ==> es[i] in InCategory(es, c)
  {
    if es != [] {
      InCategoryMembers(es[1..], c);
      var a := if es[0].category == c then [es[0]] else [];
      assert InCategory(es, c) == a + InCategory(es[1..], c);
      forall i | 0 <= i < |es| && es[i].category == c ensures es[i] in InCategory(es, c) {
        if i > 0 {
          assert es[i] == es[1..][i - 1];
        }
      }
    }
  }

  lemma {:induction false} OutsideMembers(es: seq<Expense>, c: string)
    ensures forall i :: 0 <= i < |OutsideCategory(es, c)| ==>
              OutsideCategory(es, c)[i] in es && OutsideCategory(es, c)[i].category != c
  {
    if es != [] {
      OutsideMembers(es[1..], c);
      var b := if es[0].category == c then [] else [es[0]];
      assert OutsideCategory(es, c) == b + OutsideCategory(es[1..], c);
    }
  }

  lemma {:induction false} InCategoryOfOutside(es: seq<Expense>, k: string, c: string)
    requires k != c
    ensures InCategory(OutsideCategory(es, k), c) == InCategory(es, c)
  {
    if es != [] {
      InCategoryOfOutside(es[1..], k, c);
      var rest := OutsideCategory(es[1..], k);
      if es[0].category == k {
        assert OutsideCategory(es, k) == rest;
      } else {
        assert OutsideCategory(es, k) == [es[0]] + rest;
        assert ([es[0]] + rest)[1..] == rest;
      }
    }
  }

  /** The distinct `_id`s the category `$group` produces (one per category present). */
  function Categories(es: seq<Expense>): (cs: seq<string>)
    ensures Distinct(cs)
    ensures |cs| <= |es|
    ensures forall i :: 0 <= i < |es| ==> es[i].category in cs
    ensures forall i :: 0 <= i < |cs| ==> exists k :: 0 <= k < |es| && es[k].category == cs[i]
  {
    if es == [] then []
    else
      var rest := Categories(es[1..]);
      assert forall i :: 0 <= i < |es[1..]| ==> es[1..][i] == es[i + 1];
      if es[0].category in rest then rest else [es[0].category] + rest
  }

  /** A category that some record carries has a non-empty bucket. */
  lemma CategoryPresent(es: seq<Expense>, c: string)
    requires exists k :: 0 <= k < |es| && es[k].category == c
    ensures InCategory(es, c) != []
  {
    var k :| 0 <= k < |es| && es[k].category == c;
    InCategoryMembers(es, c);
    assert es[k] in InCategory(es, c);
  }

  function GroupTotals(es: seq<Expense>, cs: seq<string>): real
  {
    if cs == [] then 0.0 else Total(InCategory(es, cs[0])) + GroupTotals(es, cs[1..])
  }

  function GroupCounts(es: seq<Expense>, cs: seq<string>): nat
  {
    if cs == [] then 0 else |InCategory(es, cs[0])| + GroupCounts(es, cs[1..])
  }

  lemma {:induction false} GroupsOfOutside(es: seq<Expense>, k: string, cs: seq<string>)
    requires k !in cs
    ensures GroupTotals(OutsideCategory(es, k), cs) == GroupTotals(es, cs)
    ensures GroupCounts(OutsideCategory(es, k), cs) == GroupCounts(es, cs)
  {
    if cs != [] {
      InCategoryOfOutside(es, k, cs[0]);
      GroupsOfOutside(es, k, cs[1..]);
    }
  }

  /**
   * Grouping by category loses and duplicates nothing: over distinct keys that
   * cover every record, the bucket sums add up to the grand total and the
   * bucket counts to the number of records.
   */
  lemma {:induction false} GroupsPartition(es: seq<Expense>, cs: seq<string>)
    requires Distinct(cs)
    requires forall i :: 0 <= i < |es| ==> es[i].category in cs
    ensures GroupTotals(es, cs) == Total(es)
    ensures GroupCounts(es, cs) == |es|
    decreases |cs|
  {
    if cs == [] {
      if es != [] {
        assert false;
      }
    } else {
      var k := cs[0];
      var rest := cs[1..];
      var others := OutsideCategory(es, k);
      CategorySplit(es, k);
      assert k !in rest by {
        forall i | 0 <= i < |rest| ensures rest[i] != k {
          assert rest[i] == cs[i + 1];
        }
      }
      OutsideMembers(es, k);
      forall i | 0 <= i < |others| ensures others[i].category in rest {
        var j :| 0 <= j < |es| && es[j] == others[i];
        assert es[j].category in cs;
      }
      GroupsPartition(others, rest);
      GroupsOfOutside(es, k, rest);
    }
  }

  /** Newest record of a non-empty bucket (what `findOne(...).sort({date: -1})` returns). */
  function Newest(es: seq<Expense>): (r: Expense)
    requires es != []
    ensures r in es
    ensures forall i :: 0 <= i < |es| ==> Rank(es[i].date) <= Rank(r.date)
  {
    var s := NewestFirst(es);
    assert |s| == |multiset(s)| == |multiset(es)| == |es|;
    assert s[0] in multiset(es);
    forall i | 0 <= i < |es| ensures Rank(es[i].date) <= Rank(s[0].date) {
      assert es[i] in multiset(s);
      var j :| 0 <= j < |s| && s[j] == es[i];
    }
    s[0]
  }

  /** One entry of the category summary. */
  datatype CategorySummary = CategorySummary(
    name: string, totalSpent: real, count: nat, latestDate: Stamp, latestAmount: real, latestExpenseId: nat)

  /** The summary of bucket `c`: `$sum` of amounts, `$sum: 1`, `$max` of dates and the newest record. */
  function SummaryOf(es: seq<Expense>, c: string): (r: CategorySummary)
    requires InCategory(es, c) != []
    ensures r.name == c && r.totalSpent == Total(InCategory(es, c)) && r.count == |InCategory(es, c)|
    ensures r.count >= 1
  {
    var group := InCategory(es, c);
    var newest := Newest(group);
    CategorySummary(c, Total(group), |group|, newest.date, newest.amount, newest.id)
  }

  /**
   * `latestDate` is the largest date in the bucket (`$max`), and the latest
   * amount and id belong to a record of the bucket carrying that date.
   */
  lemma SummaryLatest(es: seq<Expense>, c: string)
    requires InCategory(es, c) != []
    ensures forall i :: 0 <= i < |es| && es[i].category == c ==> Rank(es[i].date) <= Rank(SummaryOf(es, c).latestDate)
    ensures exists i :: 0 <= i < |es| && es[i].category == c && es[i].date == SummaryOf(es, c).latestDate
              && es[i].amount == SummaryOf(es, c).latestAmount && es[i].id == SummaryOf(es, c).latestExpenseId
  {
    var group := InCategory(es, c);
    var newest := Newest(group);
    InCategoryMembers(es, c);
    forall i | 0 <= i < |es| && es[i].category == c ensures Rank(es[i].date) <= Rank(newest.date) {
      assert es[i] in group;
      var j :| 0 <= j < |group| && group[j] == es[i];
    }
    var j :| 0 <= j < |group| && group[j] == newest;
    var i :| 0 <= i < |es| && es[i] == newest;
  }

  function SummaryRows(es: seq<Expense>, cs: seq<string>): (rows: seq<CategorySummary>)
    requires forall i :: 0 <= i < |cs| ==> InCategory(es, cs[i]) != []
    ensures |rows| == |cs|
    ensures forall i :: 0 <= i < |cs| ==> rows[i] == SummaryOf(es, cs[i])
  {
    if cs == [] then [] else [SummaryOf(es, cs[0])] + SummaryRows(es, cs[1..])
  }

  function SpentOf(r: CategorySummary): real { r.totalSpent }
  function CountOf(r: CategorySummary): real { r.count as real }
  function LatestKey(r: CategorySummary): real { Rank(r.latestDate) as real }

  lemma {:induction false} SummaryRowsSums(es: seq<Expense>, cs: seq<string>)
    requires forall i :: 0 <= i < |cs| ==> InCategory(es, cs[i]) != []
    ensures SumBy(SummaryRows(es, cs), SpentOf) == GroupTotals(es, cs)
    ensures SumBy(SummaryRows(es, cs), CountOf) == GroupCounts(es, cs) as real
  {
    if cs != [] {
      SummaryRowsSums(es, cs[1..]);
    }
  }

  lemma AllPresent(es: seq<Expense>)
    ensures forall i :: 0 <= i < |Categories(es)| ==> InCategory(es, Categories(es)[i]) != []
  {
    var cs := Categories(es);
    forall i | 0 <= i < |cs| ensures InCategory(es, cs[i]) != [] {
      CategoryPresent(es, cs[i]);
    }
  }

  /** The `$group` by category, one entry per distinct category, before `$sort`. */
  function GroupedSummaries(owned: seq<Expense>): (rows: seq<CategorySummary>)
    ensures |rows| == |Categories(owned)|
    ensures forall i :: 0 <= i < |rows| ==>
              (InCategory(owned, Categories(owned)[i]) != [] && rows[i] == SummaryOf(owned, Categories(owned)[i]))
  {
    AllPresent(owned);
    SummaryRows(owned, Categories(owned))
  }

  /** The category summary of a user's records: `$sort: { latestDate: -1 }` of the groups. */
  function CategorySummaries(owned: seq<Expense>): (rows: seq<CategorySummary>)
    ensures multiset(rows) == multiset(GroupedSummaries(owned))
    ensures forall i, j :: 0 <= i < j < |rows| ==> Rank(rows[i].latestDate) >= Rank(rows[j].latestDate)
  {
    var rows := SortDesc(GroupedSummaries(owned), LatestKey);
    assert forall i, j :: 0 <= i < j < |rows| ==> LatestKey(rows[i]) >= LatestKey(rows[j]);
    rows
  }

  /** Every entry of the summary describes its own category's bucket, and no category appears twice. */
  lemma SummariesExact(owned: seq<Expense>)
    ensures forall k :: 0 <= k < |CategorySummaries(owned)| ==>
              (InCategory(owned, CategorySummaries(owned)[k].name) != []
               && CategorySummaries(owned)[k] == SummaryOf(owned, CategorySummaries(owned)[k].name))
    ensures forall i, j :: 0 <= i < j < |CategorySummaries(owned)| ==>
              CategorySummaries(owned)[i].name != CategorySummaries(owned)[j].name
  {
    var cs := Categories(owned);
    var unsorted := GroupedSummaries(owned);
    var rows := CategorySummaries(owned);
    forall k | 0 <= k < |rows|
      ensures InCategory(owned, rows[k].name) != [] && rows[k] == SummaryOf(owned, rows[k].name)
    {
      assert rows[k] in multiset(unsorted);
      var m :| 0 <= m < |unsorted| && unsorted[m] == rows[k];
    }
    assert Distinct(unsorted) by {
      forall i, j | 0 <= i < j < |unsorted| ensures unsorted[i] != unsorted[j] {
        assert unsorted[i].name == cs[i];
      }
    }
    DistinctPermutation(unsorted, rows);
  }

  /** Every category the user has spent in gets an entry. */
  lemma SummariesCover(owned: seq<Expense>)
    ensures forall i :: 0 <= i < |owned| ==>
              exists k :: 0 <= k < |CategorySummaries(owned)| && CategorySummaries(owned)[k].name == owned[i].category
  {
    var cs := Categories(owned);
    var unsorted := GroupedSummaries(owned);
    var rows := CategorySummaries(owned);
    forall i | 0 <= i < |owned| ensures exists k :: 0 <= k < |rows| && rows[k].name == owned[i].category {
      var m :| 0 <= m < |cs| && cs[m] == owned[i].category;
      assert unsorted[m].name == owned[i].category;
      assert unsorted[m] in multiset(rows);
      var k :| 0 <= k < |rows| && rows[k] == unsorted[m];
    }
  }

  /** The entries' totals add up to the user's total spend, their counts to the number of records. */
  lemma SummariesAddUp(owned: seq<Expense>)
    ensures SumBy(CategorySummaries(owned), SpentOf) == Total(owned)
    ensures SumBy(CategorySummaries(owned), CountOf) == |owned| as real
  {
    var cs := Categories(owned);
    AllPresent(owned);
    SummaryRowsSums(owned, cs);
    GroupsPartition(owned, cs);
    SumByPermutation(CategorySummaries(owned), GroupedSummaries(owned), SpentOf);
    SumByPermutation(CategorySummaries(owned), GroupedSummaries(owned), CountOf);
  }

  // ---------------------------------------------------------------- rounding and the pie chart

  /**
   * `$round: [x, 2]` (ties rounded up): a whole number of cents within half a
   * cent of `x`, which singles out one value.
   */
  function Round2(x: real): (r: real)
    ensures (r * 100.0).Floor as real == r * 100.0
    ensures x - 1.0 / 200.0 < r <= x + 1.0 / 200.0
  {
    var f := (x * 100.0 + 0.5).Floor;
    assert f as real <= x * 100.0 + 0.5 < f as real + 1.0;
    f as real / 100.0
  }

  /** One slice: `{ name: category, value: rounded total }`. */
  datatype PieSlice = PieSlice(name: string, value: real)

  function ValueOf(p: PieSlice): real { p.value }

  function Slices(es: seq<Expense>, cs: seq<string>): (r: seq<PieSlice>)
    ensures |r| == |cs|
    ensures forall i :: 0 <= i < |cs| ==> r[i] == PieSlice(cs[i], Round2(Total(InCategory(es, cs[i]))))
  {
    if cs == [] then [] else [PieSlice(cs[0], Round2(Total(InCategory(es, cs[0]))))] + Slices(es, cs[1..])
  }

  lemma {:induction false} SlicesNearTotals(es: seq<Expense>, cs: seq<string>)
    ensures GroupTotals(es, cs) - |cs| as real / 200.0 <= SumBy(Slices(es, cs), ValueOf)
    ensures SumBy(Slices(es, cs), ValueOf) <= GroupTotals(es, cs) + |cs| as real / 200.0
  {
    if cs != [] {
      SlicesNearTotals(es, cs[1..]);
    }
  }

  /** The pie pipeline on the matched records: `$group` by category, `$round`, `$sort: { value: -1 }`. */
  function PieData(matched: seq<Expense>): (r: seq<PieSlice>)
    ensures multiset(r) == multiset(Slices(matched, Categories(matched)))
    ensures forall i, j :: 0 <= i < j < |r| ==> r[i].value >= r[j].value
  {
    var r := SortDesc(Slices(matched, Categories(matched)), ValueOf);
    assert forall i, j :: 0 <= i < j < |r| ==> ValueOf(r[i]) >= ValueOf(r[j]);
    r
  }

  /** Each slice is a present category with its total rounded to cents, and no category has two slices. */
  lemma PieExact(matched: seq<Expense>)
    ensures forall i :: 0 <= i < |PieData(matched)| ==>
              (InCategory(matched, PieData(matched)[i].name) != []
               && PieData(matched)[i].value == Round2(Total(InCategory(matched, PieData(matched)[i].name))))
    ensures forall i, j :: 0 <= i < j < |PieData(matched)| ==> PieData(matched)[i].name != PieData(matched)[j].name
  {
    var cs := Categories(matched);
    var unsorted := Slices(matched, cs);
    var r := PieData(matched);
    AllPresent(matched);
    forall i | 0 <= i < |r| ensures InCategory(matched, r[i].name) != [] && r[i].value == Round2(Total(InCategory(matched, r[i].name))) {
      assert r[i] in multiset(unsorted);
      var m :| 0 <= m < |cs| && unsorted[m] == r[i];
    }
    assert Distinct(unsorted) by {
      forall i, j | 0 <= i < j < |unsorted| ensures unsorted[i] != unsorted[j] {
        assert unsorted[i].name == cs[i];
      }
    }
    DistinctPermutation(unsorted, r);
  }

  /** Every category among the matched records has a slice. */
  lemma PieCovers(matched: seq<Expense>)
    ensures forall i :: 0 <= i < |matched| ==>
              exists k :: 0 <= k < |PieData(matched)| && PieData(matched)[k].name == matched[i].category
  {
    var cs := Categories(matched);
    var unsorted := Slices(matched, cs);
    var r := PieData(matched);
    forall i | 0 <= i < |matched| ensures exists k :: 0 <= k < |r| && r[k].name == matched[i].category {
      var m :| 0 <= m < |cs| && cs[m] == matched[i].category;
      assert unsorted[m] in multiset(r);
    }
  }

  /** The slice values add up to the matched total within half a cent per slice. */
  lemma PieAddsUp(matched: seq<Expense>)
    ensures |PieData(matched)| <= |matched|
    ensures Total(matched) - |PieData(matched)| as real / 200.0 <= SumBy(PieData(matched), ValueOf)
    ensures SumBy(PieData(matched), ValueOf) <= Total(matched) + |PieData(matched)| as real / 200.0
  {
    var cs := Categories(matched);
    GroupsPartition(matched, cs);
    SlicesNearTotals(matched, cs);
    SumByPermutation(PieData(matched), Slices(matched, cs), ValueOf);
  }

  /** There are never more distinct categories than records. */
  lemma {:induction false} DistinctCategoriesBound(es: seq<Expense>)
    ensures |Categories(es)| <= |es|
  {
    if es != [] {
      DistinctCategoriesBound(es[1..]);
    }
  }

  // ---------------------------------------------------------------- the monthly series

  /** The records of one `$group` bucket keyed by `{ $month: '$date' }`. */
  function InMonth(es: seq<Expense>, m: int): seq<Expense>
  {
    if es == [] then []
    else (if es[0].date.date.month == m then [es[0]] else []) + InMonth(es[1..], m)
  }

  lemma {:induction false} InMonthHolds(es: seq<Expense>, k: int)
    requires 0 <= k < |es|
    ensures InMonth(es, es[k].date.date.month) != []
  {
    if k > 0 {
      InMonthHolds(es[1..], k - 1);
    }
  }

  /** `{ monthNumber, amount }` before the names are attached. */
  datatype MonthBucket = MonthBucket(monthNumber: int, amount: real)

  function BucketsFrom(es: seq<Expense>, m: int): (r: seq<MonthBucket>)
    requires 1 <= m <= 13
    ensures forall i :: 0 <= i < |r| ==> m <= r[i].monthNumber <= 12
    decreases 13 - m
  {
    if m == 13 then []
    else
      var rest := BucketsFrom(es, m + 1);
      if InMonth(es, m) == [] then rest
      else [MonthBucket(m, Round2(Total(InMonth(es, m))))] + rest
  }

  lemma {:induction false} BucketsOrdered(es: seq<Expense>, m: int)
    requires 1 <= m <= 13
    ensures forall i, j :: 0 <= i < j < |BucketsFrom(es, m)| ==> BucketsFrom(es, m)[i].monthNumber < BucketsFrom(es, m)[j].monthNumber
    decreases 13 - m
  {
    if m < 13 {
      BucketsOrdered(es, m + 1);
    }
  }

  lemma {:induction false} BucketsExact(es: seq<Expense>, m: int)
    requires 1 <= m <= 13
    ensures forall i :: 0 <= i < |BucketsFrom(es, m)| ==>
              (InMonth(es, BucketsFrom(es, m)[i].monthNumber) != []
               && BucketsFrom(es, m)[i].amount == Round2(Total(InMonth(es, BucketsFrom(es, m)[i].monthNumber))))
    decreases 13 - m
  {
    if m < 13 {
      BucketsExact(es, m + 1);
      var rest := BucketsFrom(es, m + 1);
      if InMonth(es, m) != [] {
        var r := BucketsFrom(es, m);
        assert forall i :: 0 < i < |r| ==> r[i] == rest[i - 1];
      }
    }
  }

  lemma {:induction false} BucketsComplete(es: seq<Expense>, m: int)
    requires 1 <= m <= 13
    ensures forall n :: m <= n <= 12 && InMonth(es, n) != [] ==>
              exists i :: 0 <= i < |BucketsFrom(es, m)| && BucketsFrom(es, m)[i].monthNumber == n
    decreases 13 - m
  {
    if m < 13 {
      BucketsComplete(es, m + 1);
      var rest := BucketsFrom(es, m + 1);
      var r := BucketsFrom(es, m);
      assert r == if InMonth(es, m) == [] then rest else [MonthBucket(m, Round2(Total(InMonth(es, m))))] + rest;
      forall n | m <= n <= 12 && InMonth(es, n) != [] ensures exists i :: 0 <= i < |r| && r[i].monthNumber == n {
        if n == m {
          assert r[0].monthNumber == n;
        } else {
          var i :| 0 <= i < |rest| && rest[i].monthNumber == n;
          if InMonth(es, m) != [] {
            assert r[i + 1] == rest[i];
          } else {
            assert r[i] == rest[i];
          }
        }
      }
      assert forall n :: m <= n <= 12 && InMonth(es, n) != [] ==>
               exists i :: 0 <= i < |BucketsFrom(es, m)| && BucketsFrom(es, m)[i].monthNumber == n;
    }
  }

  /** The monthly pipeline on one year's records: `$group` by `$month`, `$round`, `$sort: { monthNumber: 1 }`. */
  function MonthlyBuckets(yearRecords: seq<Expense>): (r: seq<MonthBucket>)
    ensures forall i :: 0 <= i < |r| ==> 1 <= r[i].monthNumber <= 12
  {
    BucketsFrom(yearRecords, 1)
  }

  /**
   * The series holds exactly the months that have records, January to
   * December, each with its total rounded to cents.
   */
  lemma MonthlyExact(yearRecords: seq<Expense>)
    ensures var r := MonthlyBuckets(yearRecords);
      (forall i, j :: 0 <= i < j < |r| ==> r[i].monthNumber < r[j].monthNumber)
      && (forall i :: 0 <= i < |r| ==>
            (InMonth(yearRecords, r[i].monthNumber) != []
             && r[i].amount == Round2(Total(InMonth(yearRecords, r[i].monthNumber)))))
      && (forall i :: 0 <= i < |yearRecords| ==>
            exists k :: 0 <= k < |r| && r[k].monthNumber == yearRecords[i].date.date.month)
  {
    BucketsOrdered(yearRecords, 1);
    BucketsExact(yearRecords, 1);
    BucketsComplete(yearRecords, 1);
    forall i | 0 <= i < |yearRecords| {
      InMonthHolds(yearRecords, i);
    }
  }

  const MonthNames: seq<string> := ["Jan", "Feb", "Mar", "Apr", "May", "Jun", "Jul", "Aug", "Sep", "Oct", "Nov", "Dec"]

  /** One bar: `{ month: name, amount }`. */
  datatype MonthAmount = MonthAmount(month: string, amount: real)

  function NameMonths(bs: seq<MonthBucket>): (r: seq<MonthAmount>)
    requires forall i :: 0 <= i < |bs| ==> 1 <= bs[i].monthNumber <= 12
    ensures |r| == |bs|
    ensures forall i :: 0 <= i < |bs| ==> r[i] == MonthAmount(MonthNames[bs[i].monthNumber - 1], bs[i].amount)
  {
    if bs == [] then [] else [MonthAmount(MonthNames[bs[0].monthNumber - 1], bs[0].amount)] + NameMonths(bs[1..])
  }

  /** The year window `[Jan 1 00:00, Dec 31 23:59:59.999]` of `new Date(year, 0, 1)` / `new Date(year, 11, 31, ...)`. */
  function YearWindow(username: string, year: int): Query
  {
    DayWindow(username, FirstOfMonth(JsYear(year), 1), LastOfMonth(JsYear(year), 12))
  }

  lemma YearWindowMatches(e: Expense, username: string, year: int)
    ensures Matches(e, YearWindow(username, year)) <==> e.username == username && e.date.date.year == JsYear(year)
  {
    InYearWindow(e.date, JsYear(year));
  }

  /** The month window of the month that `now` falls in. */
  function MonthWindow(username: string, now: Stamp): Query
  {
    DayWindow(username, FirstOfMonth(JsYear(now.date.year), now.date.month),
              LastOfMonth(JsYear(now.date.year), now.date.month))
  }

  lemma MonthWindowMatches(e: Expense, username: string, now: Stamp)
    ensures Matches(e, MonthWindow(username, now)) <==>
              e.username == username && e.date.date.year == JsYear(now.date.year) && e.date.date.month == now.date.month
  {
    InMonthWindow(e.date, JsYear(now.date.year), now.date.month);
  }

  /** The window of the day `now` falls in. */
  function TodayWindow(username: string, now: Stamp): Query
  {
    DayWindow(username, now.date, now.date)
  }

  lemma TodayWindowMatches(e: Expense, username: string, now: Stamp)
    ensures Matches(e, TodayWindow(username, now)) <==> e.username == username && e.date.date == now.date
  {
    InDaysByDate(e.date, now.date, now.date);
  }

  // ---------------------------------------------------------------- bulk updates

  /** `updateMany(q, { $set: { category: c } })` with its `updatedAt` timestamp. */
  function SetCategory(es: seq<Expense>, q: Query, c: string, now: Stamp): (r: seq<Expense>)
    ensures |r| == |es|
    ensures forall i :: 0 <= i < |es| ==> r[i] == if Matches(es[i], q) then es[i].(category := c, updatedAt := now) else es[i]
  {
    if es == [] then []
    else [if Matches(es[0], q) then es[0].(category := c, updatedAt := now) else es[0]] + SetCategory(es[1..], q, c, now)
  }

  /** A rename keeps every amount, so it keeps every total. */
  lemma {:induction false} SetCategoryKeepsTotal(es: seq<Expense>, q: Query, c: string, now: Stamp)
    ensures Total(SetCategory(es, q, c, now)) == Total(es)
  {
    if es != [] {
      SetCategoryKeepsTotal(es[1..], q, c, now);
    }
  }
}
