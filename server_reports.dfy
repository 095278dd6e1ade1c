/**
 * The read-only reports of the server: the per-category chart data, the
 * dashboard summary and the list of recent activities.
 */
module ServerReports {
  import opened Base
  import opened Js
  import opened Aggregation
  import opened Server

  // ---------------------------------------------------------------- /api/chart-data

  /** `book.category || 'Uncategorized'`. */
  function ChartCategory(b: Book): string {
    if b.category == "" then "Uncategorized" else b.category
  }

  /**
   * The (category, amount) pair each book contributes; `book.amount || 0` is
   * the amount itself, as the column is a non-null integer.
   */
  function ChartPairs(books: seq<Book>): (ps: seq<(string, int)>)
    ensures |ps| == |books|
    ensures forall i :: 0 <= i < |books| ==> ps[i] == (ChartCategory(books[i]), books[i].amount)
  {
    seq(|books|, i requires 0 <= i < |books| => (ChartCategory(books[i]), books[i].amount))
  }

  datatype Dataset = Dataset(datasetLabel: string, data: seq<int>, backgroundColor: seq<string>)

  datatype ChartData = ChartData(labels: seq<string>, datasets: seq<Dataset>)

  function ChartLabel(): string { "Number of Books per Category" }

  function ChartColors(): seq<string> {
    ["#FF6384", "#36A2EB", "#FFCE56", "#4BC0C0", "#9966FF", "#FF9F40"]
  }

  /**
   * The chart of book amounts per category: `Object.keys` and
   * `Object.values` of the category totals.
   */
  function Chart(books: seq<Book>): (c: ChartData)
    ensures |c.datasets| == 1
    ensures c.datasets[0].datasetLabel == ChartLabel() && c.datasets[0].backgroundColor == ChartColors()
    ensures NoDup(c.labels) && |c.datasets[0].data| == |c.labels|
  {
    var d := Tally(ChartPairs(books));
    ChartData(OwnKeys(d), [Dataset(ChartLabel(), OwnValues(d), ChartColors())])
  }

  /** Every label is the category of some book. */
  lemma LabelsAreCategories(books: seq<Book>)
    ensures forall i :: 0 <= i < |Chart(books).labels| ==> Chart(books).labels[i] in Keys(ChartPairs(books))
  {
    TallyKeys(ChartPairs(books));
  }

  /** Every book's category, with "" read as "Uncategorized", is a label. */
  lemma EveryCategoryLabelled(books: seq<Book>)
    ensures forall i :: 0 <= i < |books| ==> ChartCategory(books[i]) in Chart(books).labels
  {
    var ps := ChartPairs(books);
    TallyKeys(ps);
    forall i | 0 <= i < |books| ensures ChartCategory(books[i]) in OwnKeys(Tally(ps)) {
      assert Keys(ps)[i] == ChartCategory(books[i]);
    }
  }

  /** The empty category is folded into "Uncategorized", so no label is empty. */
  lemma NoEmptyLabel(books: seq<Book>)
    ensures forall i :: 0 <= i < |Chart(books).labels| ==> Chart(books).labels[i] != ""
  {
    TallyKeys(ChartPairs(books));
    CategoriesNonEmpty(books);
  }

  lemma CategoriesNonEmpty(books: seq<Book>)
    ensures "" !in Keys(ChartPairs(books))
  {
    var ks := Keys(ChartPairs(books));
    forall j | 0 <= j < |ks| ensures ks[j] != "" {
      assert ks[j] == ChartCategory(books[j]);
    }
  }

  /** Each value is the sum of the amounts of the books in that label's category. */
  lemma ChartDataAreTotals(books: seq<Book>)
    ensures forall i :: 0 <= i < |Chart(books).labels| ==>
      Chart(books).datasets[0].data[i] == AmountFor(ChartPairs(books), Chart(books).labels[i])
  {
    TallyValues(ChartPairs(books));
  }

  /**
   * When no category is an array index (a canonical numeral such as "12"),
   * the labels are the distinct categories in order of first occurrence.
   */
  lemma ChartLabelsInFirstOccurrenceOrder(books: seq<Book>)
    requires forall i :: 0 <= i < |books| ==> !IsArrayIndex(ChartCategory(books[i]))
    ensures Chart(books).labels == Distinct(Keys(ChartPairs(books)))
  {
    TallyKeysInFirstOccurrenceOrder(ChartPairs(books));
  }

  // ---------------------------------------------------------------- /api/dashboard-summary

  datatype Summary = Summary(totalBooks: int, lowStock: nat, totalOrders: nat)

  function BookAmount(b: Book): int { b.amount }

  function IsLowStock(b: Book): bool { b.amount < 50 }

  /** The indices of the books with fewer than 50 copies. */
  function LowStockIndices(books: seq<Book>): set<nat> {
    set i: nat | i < |books| && books[i].amount < 50
  }

  /** Totals for the dashboard: all copies, the low-stock titles, and the orders. */
  function DashboardSummary(books: seq<Book>, orders: seq<Order>): (s: Summary)
    ensures s.lowStock == |LowStockIndices(books)| && s.lowStock <= |books|
    ensures s.totalOrders == |orders| && (s.totalOrders == 0 <==> orders == [])
  {
    LowStockCount(books);
    Summary(SumOf(books, BookAmount), |Filter(books, IsLowStock)|, |orders|)
  }

  lemma {:induction false} LowStockCount(books: seq<Book>)
    ensures |Filter(books, IsLowStock)| == |LowStockIndices(books)|
  {
    if books != [] {
      LowStockStep(books);
      LowStockCount(books[..|books| - 1]);
    }
  }

  lemma LowStockStep(books: seq<Book>)
    requires books != []
    ensures var n := |books| - 1;
      LowStockIndices(books) == LowStockIndices(books[..n]) + (if IsLowStock(books[n]) then {n} else {})
  {
    var n := |books| - 1;
    assert forall i :: 0 <= i < n ==> books[i] == books[..n][i];
  }

  lemma {:induction false} PairsTotal(books: seq<Book>)
    ensures SumOf(ChartPairs(books), Second) == SumOf(books, BookAmount)
  {
    if books != [] {
      var p := books[..|books| - 1];
      assert ChartPairs(books)[..|p|] == ChartPairs(p);
      PairsTotal(p);
    }
  }

  /** The chart's amounts add up to the summary's total of books. */
  lemma ChartTotalIsTotalBooks(books: seq<Book>, orders: seq<Order>)
    ensures Sum(Chart(books).datasets[0].data) == DashboardSummary(books, orders).totalBooks
  {
    var d := Tally(ChartPairs(books));
    OwnValuesTotal(d);
    OwnKeysTotal(d);
    TallyTotal(ChartPairs(books));
    PairsTotal(books);
  }

  // ---------------------------------------------------------------- /api/activities

  function Newness(a: Activity): int { -a.createdAt }

  /** `findAll({ order: [['createdAt', 'DESC']], limit: 10 })`. */
  function RecentActivities(log: seq<Activity>): (r: seq<Activity>)
    ensures |r| == if |log| < 10 then |log| else 10
    ensures forall i, j :: 0 <= i < j < |r| ==> r[i].createdAt >= r[j].createdAt
    ensures multiset(r) <= multiset(log)
    ensures forall k, i :: 0 <= k < |log| && log[k] !in r && 0 <= i < |r| ==> log[k].createdAt <= r[i].createdAt
  {
    var s := SortBy(log, Newness);
    var n := if |log| < 10 then |log| else 10;
    RecentFacts(log, s, n);
    s[..n]
  }

  lemma RecentFacts(log: seq<Activity>, s: seq<Activity>, n: nat)
    requires SortedBy(s, Newness) && multiset(s) == multiset(log) && n <= |s|
    ensures forall i, j :: 0 <= i < j < n ==> s[i].createdAt >= s[j].createdAt
    ensures multiset(s[..n]) <= multiset(log)
    ensures forall k, i :: 0 <= k < |log| && log[k] !in s[..n] && 0 <= i < n ==> log[k].createdAt <= s[i].createdAt
  {
    assert s == s[..n] + s[n..];
    forall k, i | 0 <= k < |log| && log[k] !in s[..n] && 0 <= i < n ensures log[k].createdAt <= s[i].createdAt {
      LeftOutIsOlder(log, s, n, k, i);
    }
  }

  lemma LeftOutIsOlder(log: seq<Activity>, s: seq<Activity>, n: nat, k: nat, i: nat)
    requires SortedBy(s, Newness) && multiset(s) == multiset(log) && n <= |s|
    requires k < |log| && log[k] !in s[..n] && i < n
    ensures log[k].createdAt <= s[i].createdAt
  {
    assert log[k] in multiset(s);
    var m :| 0 <= m < |s| && s[m] == log[k];
    assert Newness(s[i]) <= Newness(s[m]);
  }

  /** An entry strictly newer than every other entry is listed first. */
  lemma NewestListedFirst(log: seq<Activity>, e: nat)
    requires e < |log|
    requires forall i :: 0 <= i < |log| && i != e ==> log[i].createdAt < log[e].createdAt
    ensures RecentActivities(log)[0] == log[e]
  {
    var r := RecentActivities(log);
    assert r[0] in multiset(log);
    var k :| 0 <= k < |log| && log[k] == r[0];
  }
}
