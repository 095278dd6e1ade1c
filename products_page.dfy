/**
 * The products page: the fetched books, the selection, the category filter,
 * and the add, edit and delete buttons. Rows are kept as the server sends them.
 */
module ProductsPage {
  import opened Base
  import opened Js
  import opened Server
  import opened PageValues
  import opened Selection

  /** The new-book form when the page opens and after a book is added. */
  function BlankItem(): Obj {
    map["name" := Str(""), "category" := Str(""), "amount" := Str(""), "cost" := Str("")]
  }

  function FetchError(): string { "Failed to fetch books from the server." }

  /** A book as the server sends it. */
  function BookJson(b: Book): Obj {
    map["id" := Num(b.id as real), "name" := Str(b.name), "category" := Str(b.category),
        "amount" := Num(b.amount as real), "cost" := Num(b.cost), "date" := Str(b.date)]
  }

  function BookRows(books: seq<Book>): (rows: seq<Obj>)
    ensures |rows| == |books| && forall i :: 0 <= i < |books| ==> rows[i] == BookJson(books[i])
  {
    seq(|books|, i requires 0 <= i < |books| => BookJson(books[i]))
  }

  // ---------------------------------------------------------------- categories and the filter

  function CategoryOf(item: Obj): Value { Field(item, "category") }

  function Categories(items: seq<Obj>): (cs: seq<Value>)
    ensures |cs| == |items| && forall i :: 0 <= i < |items| ==> cs[i] == CategoryOf(items[i])
  {
    seq(|items|, i requires 0 <= i < |items| => CategoryOf(items[i]))
  }

  /** `["All", ...new Set(items.map(item => item.category))]`. */
  function UniqueCategories(items: seq<Obj>): (r: seq<Value>)
    ensures |r| >= 1 && r[0] == Str("All") && NoDup(r[1..])
    ensures forall i :: 0 <= i < |items| ==> CategoryOf(items[i]) in r[1..]
    ensures forall i :: 1 <= i < |r| ==> r[i] in Categories(items)
  {
    var d := Distinct(Categories(items));
    assert ([Str("All")] + d)[1..] == d;
    forall i | 0 <= i < |items| ensures CategoryOf(items[i]) in d {
      assert Categories(items)[i] == CategoryOf(items[i]);
    }
    [Str("All")] + d
  }

  /** The categories after "All" follow the order in which they first occur. */
  lemma UniqueCategoriesInFirstOccurrenceOrder(items: seq<Obj>)
    ensures var r := UniqueCategories(items)[1..];
      forall i, j :: 0 <= i < j < |r| ==> FirstIndex(Categories(items), r[i]) < FirstIndex(Categories(items), r[j])
  {
    assert UniqueCategories(items)[1..] == Distinct(Categories(items));
    DistinctKeepsFirstOccurrenceOrder(Categories(items));
  }

  function CategoryIs(filter: string): Obj -> bool {
    (item: Obj) => CategoryOf(item) == Str(filter)
  }

  /** `filteredItems`: all rows, or the rows whose category is the filter, in their order. */
  function FilteredItems(items: seq<Obj>, filter: string): (r: seq<Obj>)
    ensures filter == "All" ==> r == items
    ensures filter != "All" ==> forall i :: 0 <= i < |r| ==> CategoryOf(r[i]) == Str(filter) && r[i] in items
    ensures filter != "All" ==> forall i :: 0 <= i < |items| && CategoryOf(items[i]) == Str(filter) ==> items[i] in r
  {
    if filter == "All" then items else Filter(items, CategoryIs(filter))
  }

  /** `handleFilterSelect`: the category is kept as picked. */
  function FilterValue(category: string): (f: string)
    ensures f == category
  {
    category
  }

  function InCategory(c: string): Book -> bool {
    (b: Book) => b.category == c
  }

  /** Picking a category shows the rows of exactly the books of that category, in their order. */
  lemma PickedCategoryShowsItsBooks(books: seq<Book>, c: string)
    requires c != "All"
    ensures FilteredItems(BookRows(books), FilterValue(c)) == BookRows(Filter(books, InCategory(c)))
  {
    FilterRows(books, c);
  }

  lemma {:induction false} FilterRows(books: seq<Book>, c: string)
    ensures Filter(BookRows(books), CategoryIs(c)) == BookRows(Filter(books, InCategory(c)))
  {
    if books != [] {
      var n := |books| - 1;
      var p := books[..n];
      var rows := BookRows(books);
      assert rows[..n] == BookRows(p);
      FilterRows(p, c);
      var q := Filter(p, InCategory(c));
      RowsSnoc(q, books[n]);
      assert CategoryIs(c)(rows[n]) == InCategory(c)(books[n]);
    }
  }

  lemma RowsSnoc(q: seq<Book>, b: Book)
    ensures BookRows(q + [b]) == BookRows(q) + [BookJson(b)]
  {
  }

  /** A category literally named "All" cannot be picked apart from the rest: it shows every book. */
  lemma CategoryNamedAllShowsEverything(items: seq<Obj>)
    ensures FilteredItems(items, FilterValue("All")) == items
  {
  }

  // ---------------------------------------------------------------- add and edit

  /** The guard of add and edit: name, category, amount and cost all truthy. */
  predicate ItemFilled(item: Obj) {
    Truthy(Field(item, "name")) && Truthy(Field(item, "category"))
    && Truthy(Field(item, "amount")) && Truthy(Field(item, "cost"))
  }

  /**
   * `{ ...item, date: formattedDate }` after the guard. The date is not
   * guarded: a cleared picker throws on `null.toISOString()` and an invalid
   * date throws a `RangeError`, both before the request.
   */
  function Body(item: Obj, date: PickedDate): (r: Submission<Obj>)
    ensures r == Blocked <==> !ItemFilled(item)
    ensures r == Crashed <==> ItemFilled(item) && !date.Day?
    ensures r.Sent? ==> Field(r.payload, "date") == Str(date.iso)
    ensures r.Sent? ==> forall k :: k != "date" ==> Field(r.payload, k) == Field(item, k)
    ensures r.Sent? ==> r.payload.Keys == item.Keys + {"date"}
  {
    if !ItemFilled(item) then Blocked
    else if !date.Day? then Crashed
    else Sent(item["date" := Str(date.iso)])
  }

  /** The add request: the form's fields as typed, plus the day. */
  function AddRequest(item: Obj, date: PickedDate): Submission<Obj> {
    Body(item, date)
  }

  /** The edit request: the row's id for the URL and the body; no row at all throws. */
  function EditRequest(e: Option<Obj>, date: PickedDate): (r: Submission<(Value, Obj)>)
    ensures e.None? ==> r == Crashed
    ensures e.Some? && r.Sent? ==> r.payload.0 == Field(e.value, "id") && Body(e.value, date) == Sent(r.payload.1)
    ensures e.Some? && !r.Sent? ==> r == (if Body(e.value, date) == Blocked then Blocked else Crashed)
  {
    match e
    case None => Crashed
    case Some(item) =>
      match Body(item, date)
      case Blocked => Blocked
      case Crashed => Crashed
      case Sent(b) => Sent((Field(item, "id"), b))
  }

  /** Unlike the orders page, a filled form with the date cleared is not stopped by the guard. */
  lemma ClearedDateNotGuarded(item: Obj)
    requires ItemFilled(item)
    ensures AddRequest(item, NoDate) == Crashed
  {
  }

  /** A blank form never sends anything. */
  lemma BlankItemBlocked(date: PickedDate)
    ensures AddRequest(BlankItem(), date) == Blocked
  {
    assert Field(BlankItem(), "name") == Str("");
  }

  function ItemIdOf(item: Obj): Value { Field(item, "id") }

  // ---------------------------------------------------------------- the page

  class ProductsPageState {
    var items: seq<Obj>
    var selected: seq<int>
    var filterCategory: string
    var error: Option<string>
    var loading: bool
    var newItem: Obj
    var editItem: Option<Obj>
    var selectedDate: PickedDate
    var addOpen: bool
    var editOpen: bool

    /** The books on screen. */
    function Visible(): seq<Obj>
      reads this
    {
      FilteredItems(items, filterCategory)
    }

    /** The state when the page mounts; `today` is the day of `new Date()`. */
    constructor (today: string)
      ensures items == [] && selected == [] && filterCategory == "All" && error == None && loading
      ensures newItem == BlankItem() && editItem == None && selectedDate == Day(today)
      ensures !addOpen && !editOpen
    {
      items, selected, filterCategory, error, loading := [], [], "All", None, true;
      newItem, editItem, selectedDate := BlankItem(), None, Day(today);
      addOpen, editOpen := false, false;
    }

    /** `fetchBooks`: the rows are kept as they arrive. */
    method FetchBooks(response: FetchResponse<Obj>)
      modifies this`items, this`error, this`loading
      ensures response.Rows? ==> items == response.rows && error == None
      ensures !response.Rows? ==> items == [] && error == Some(FetchError())
      ensures !loading
    {
      loading := true;
      error := None;
      if response.Rows? {
        items := response.rows;
      } else {
        error := Some(FetchError());
        items := [];
      }
      loading := false;
    }

    /** `toggleSelect`. */
    method ToggleSelect(index: int)
      modifies this`selected
      ensures selected == Toggle(old(selected), index)
    {
      selected := Toggle(selected, index);
    }

    /** `handleFilterSelect`; the selection is left as it was. */
    method HandleFilterSelect(category: string)
      modifies this`filterCategory
      ensures filterCategory == FilterValue(category)
      ensures category == "All" ==> Visible() == items
    {
      filterCategory := FilterValue(category);
    }

    /**
     * `handleAddItem`; `ok` is whether the server answered 2xx and `today`
     * the day of the fresh `new Date()`. A success clears the form, resets
     * the date and closes the dialog; the list is then fetched again.
     */
    method HandleAddItem(ok: bool, today: string) returns (request: Submission<Obj>)
      modifies this`newItem, this`selectedDate, this`addOpen
      ensures request == AddRequest(old(newItem), old(selectedDate))
      ensures request.Sent? && ok ==> newItem == BlankItem() && selectedDate == Day(today) && !addOpen
      ensures !(request.Sent? && ok) ==>
        newItem == old(newItem) && selectedDate == old(selectedDate) && addOpen == old(addOpen)
    {
      var sent := AddRequest(newItem, selectedDate);
      request := sent;
      if sent.Sent? && ok {
        newItem := BlankItem();
        selectedDate := Day(today);
        addOpen := false;
      }
    }

    /** `handleEditItem`: a success drops the edited row, resets the date and closes the dialog. */
    method HandleEditItem(ok: bool, today: string) returns (request: Submission<(Value, Obj)>)
      modifies this`editItem, this`selectedDate, this`editOpen
      ensures request == EditRequest(old(editItem), old(selectedDate))
      ensures request.Sent? && ok ==> editItem == None && selectedDate == Day(today) && !editOpen
      ensures !(request.Sent? && ok) ==>
        editItem == old(editItem) && selectedDate == old(selectedDate) && editOpen == old(editOpen)
    {
      var sent := EditRequest(editItem, selectedDate);
      request := sent;
      if sent.Sent? && ok {
        editItem := None;
        selectedDate := Day(today);
        editOpen := false;
      }
    }

    /** `openEditModal`; `picked` is `new Date(item.date)`, never `null`. */
    method OpenEditModal(item: Obj, picked: PickedDate)
      requires picked != NoDate
      modifies this`editItem, this`selectedDate, this`editOpen
      ensures editItem == Some(item) && selectedDate == picked && editOpen
    {
      editItem := Some(item);
      selectedDate := picked;
      editOpen := true;
    }

    /**
     * `handleDeleteItems`; `allOk` is whether every DELETE answered 2xx. The
     * selection is cleared only when the whole batch succeeds.
     */
    method HandleDeleteItems(allOk: bool) returns (outcome: DeleteOutcome)
      modifies this`selected
      ensures outcome == DeleteTargets(old(selected), FilteredItems(items, filterCategory), ItemIdOf)
      ensures outcome.Deletes? && !outcome.stale && allOk ==> selected == []
      ensures !(outcome.Deletes? && !outcome.stale && allOk) ==> selected == old(selected)
    {
      outcome := DeleteTargets(selected, Visible(), ItemIdOf);
      if outcome.Deletes? && !outcome.stale && allOk {
        selected := [];
      }
    }
  }
}
