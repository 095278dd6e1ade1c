/**
 * The `/books-by-category` route: a loop that totals the amounts of the books
 * per category in a plain object, then lists the object's entries.
 */
module DashboardRoutes {
  import opened Base
  import opened Js
  import opened Aggregation
  import opened Server
  import opened ServerReports

  /** One element of the response. */
  datatype CategoryAmount = CategoryAmount(category: string, amount: int)

  /** The (category, amount) pair of each book, the category taken verbatim. */
  function CategoryPairs(books: seq<Book>): (ps: seq<(string, int)>)
    ensures |ps| == |books|
    ensures forall i :: 0 <= i < |books| ==> ps[i] == (books[i].category, books[i].amount)
  {
    seq(|books|, i requires 0 <= i < |books| => (books[i].category, books[i].amount))
  }

  /**
   * `if (categories[c]) categories[c] += a; else categories[c] = a;`: the
   * branch taken makes no difference, since a falsy current value is a
   * missing key or 0.
   */
  lemma TruthyBranchIsAddTo(d: Dict, k: string, v: int)
    requires DictValid(d)
    ensures (if k in d.vals && d.vals[k] != 0 then Put(d, k, d.vals[k] + v) else Put(d, k, v)) == AddTo(d, k, v)
  {
  }

  /** `Object.keys(obj).map(category => ({ category, amount: obj[category] }))`. */
  function Entries(d: Dict): (r: seq<CategoryAmount>)
    requires DictValid(d)
    ensures |r| == |OwnKeys(d)|
    ensures forall i :: 0 <= i < |r| ==> r[i] == CategoryAmount(OwnKeys(d)[i], d.vals[OwnKeys(d)[i]])
  {
    var ks := OwnKeys(d);
    seq(|ks|, i requires 0 <= i < |ks| => CategoryAmount(ks[i], d.vals[ks[i]]))
  }

  /** The response the route is specified by: the entries of the per-category totals. */
  function ByCategory(books: seq<Book>): seq<CategoryAmount> {
    Entries(Tally(CategoryPairs(books)))
  }

  /** The tally of a prefix one longer is one more step of the fold. */
  lemma TallyPrefixStep(ps: seq<(string, int)>, i: nat)
    requires i < |ps|
    ensures Tally(ps[..i + 1]) == AddTo(Tally(ps[..i]), ps[i].0, ps[i].1)
  {
    assert ps[..i + 1][..i] == ps[..i];
  }

  /** Either branch of the loop body takes the totals of `ps[..i]` to those of `ps[..i + 1]`. */
  lemma LoopStep(ps: seq<(string, int)>, i: nat, d: Dict, c: string, v: int)
    requires i < |ps| && ps[i] == (c, v) && d == Tally(ps[..i])
    ensures DictValid(d)
    ensures c in d.vals && d.vals[c] != 0 ==> Put(d, c, d.vals[c] + v) == Tally(ps[..i + 1])
    ensures !(c in d.vals && d.vals[c] != 0) ==> Put(d, c, v) == Tally(ps[..i + 1])
  {
    TallyPrefixStep(ps, i);
    TruthyBranchIsAddTo(d, c, v);
  }

  /** The route handler, after `Book.findAll()`. */
  method BooksByCategory(books: seq<Book>) returns (result: seq<CategoryAmount>)
    ensures result == ByCategory(books)
  {
    ghost var ps := CategoryPairs(books);
    var categories := EmptyDict;
    var i := 0;
    while i < |books|
      invariant 0 <= i <= |books|
      invariant categories == Tally(ps[..i])
    {
      var book := books[i];
      LoopStep(ps, i, categories, book.category, book.amount);
      if book.category in categories.vals && categories.vals[book.category] != 0 {
        categories := Put(categories, book.category, categories.vals[book.category] + book.amount);
      } else {
        categories := Put(categories, book.category, book.amount);
      }
      i := i + 1;
    }
    assert ps[..i] == ps;
    result := Entries(categories);
  }

  function AmountOf(e: CategoryAmount): int { e.amount }

  /** The categories listed, in order. */
  function Categories(r: seq<CategoryAmount>): (cs: seq<string>)
    ensures |cs| == |r| && forall i :: 0 <= i < |r| ==> cs[i] == r[i].category
  {
    seq(|r|, i requires 0 <= i < |r| => r[i].category)
  }

  /** The categories of the entries are `Object.keys` of the totals. */
  lemma EntriesCategories(d: Dict)
    requires DictValid(d)
    ensures Categories(Entries(d)) == OwnKeys(d)
  {
  }

  /** The amounts listed, in order. */
  function Amounts(r: seq<CategoryAmount>): (xs: seq<int>)
    ensures |xs| == |r| && forall i :: 0 <= i < |r| ==> xs[i] == r[i].amount
  {
    seq(|r|, i requires 0 <= i < |r| => r[i].amount)
  }

  /** One entry per distinct category: no category twice, every book's category present, nothing else. */
  lemma ByCategoryCategories(books: seq<Book>)
    ensures NoDup(Categories(ByCategory(books)))
    ensures forall i :: 0 <= i < |books| ==> books[i].category in Categories(ByCategory(books))
    ensures forall i :: 0 <= i < |ByCategory(books)| ==> ByCategory(books)[i].category in Keys(CategoryPairs(books))
  {
    var ps := CategoryPairs(books);
    TallyKeys(ps);
    EntriesCategories(Tally(ps));
    forall i | 0 <= i < |books| ensures books[i].category in OwnKeys(Tally(ps)) {
      assert Keys(ps)[i] == books[i].category;
    }
  }

  /** Each entry's amount is the sum of the amounts of the books in its category. */
  lemma ByCategoryAmounts(books: seq<Book>)
    ensures forall i :: 0 <= i < |ByCategory(books)| ==>
      ByCategory(books)[i].amount == AmountFor(CategoryPairs(books), ByCategory(books)[i].category)
  {
    TallyValues(CategoryPairs(books));
  }

  /** At most one entry per book, and none for no books. */
  lemma ByCategoryLength(books: seq<Book>)
    ensures |ByCategory(books)| <= |books|
    ensures books == [] ==> ByCategory(books) == []
  {
    TallyKeys(CategoryPairs(books));
  }

  /**
   * When no category is an array index, the entries follow the order in
   * which the categories first occur.
   */
  lemma ByCategoryFirstOccurrence(books: seq<Book>)
    requires forall i :: 0 <= i < |books| ==> !IsArrayIndex(books[i].category)
    ensures Categories(ByCategory(books)) == Distinct(Keys(CategoryPairs(books)))
  {
    var ps := CategoryPairs(books);
    TallyKeysInFirstOccurrenceOrder(ps);
    EntriesCategories(Tally(ps));
  }

  /** The amounts of the entries add up to the amounts of all books. */
  lemma ByCategoryTotal(books: seq<Book>)
    ensures SumOf(ByCategory(books), AmountOf) == SumOf(books, BookAmount)
  {
    var ps := CategoryPairs(books);
    var d := Tally(ps);
    EntriesTotal(d, OwnKeys(d));
    OwnKeysTotal(d);
    TallyTotal(ps);
    CategoryPairsTotal(books);
  }

  lemma {:induction false} EntriesTotal(d: Dict, ks: seq<string>)
    requires forall i :: 0 <= i < |ks| ==> ks[i] in d.vals
    ensures SumOf(seq(|ks|, i requires 0 <= i < |ks| => CategoryAmount(ks[i], d.vals[ks[i]])), AmountOf)
         == SumOf(ks, ValueOf(d))
  {
    if ks != [] {
      var p := ks[..|ks| - 1];
      EntriesTotal(d, p);
      assert seq(|ks|, i requires 0 <= i < |ks| => CategoryAmount(ks[i], d.vals[ks[i]]))[..|p|]
          == seq(|p|, i requires 0 <= i < |p| => CategoryAmount(p[i], d.vals[p[i]]));
    }
  }

  lemma {:induction false} CategoryPairsTotal(books: seq<Book>)
    ensures SumOf(CategoryPairs(books), Second) == SumOf(books, BookAmount)
  {
    if books != [] {
      var p := books[..|books| - 1];
      assert CategoryPairs(books)[..|p|] == CategoryPairs(p);
      CategoryPairsTotal(p);
    }
  }

  /**
   * Unlike the chart data, the route keeps an empty category as the key "",
   * so a book without a category gives an entry whose category is "".
   */
  lemma EmptyCategoryKeptVerbatim(books: seq<Book>, j: nat)
    requires j < |books| && books[j].category == ""
    ensures "" in Categories(ByCategory(books))
    ensures "" !in Chart(books).labels
  {
    ByCategoryCategories(books);
    NoEmptyLabel(books);
  }

  /** Without empty categories the route and the chart data agree. */
  lemma AgreesWithChart(books: seq<Book>)
    requires forall i :: 0 <= i < |books| ==> books[i].category != ""
    ensures Categories(ByCategory(books)) == Chart(books).labels
    ensures Amounts(ByCategory(books)) == Chart(books).datasets[0].data
  {
    assert CategoryPairs(books) == ChartPairs(books);
  }
}
