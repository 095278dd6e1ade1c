/**
 * The orders page: the fetched orders, the selection, the status filter and
 * its display labels, and the add, edit and delete buttons.
 */
module OrdersPage {
  import opened Base
  import opened Js
  import opened Server
  import opened PageValues
  import opened Selection

  /** An order as the page holds it: a fetched row, the new-order form or the order being edited. */
  datatype OrderFields = OrderFields(
    id: Value, bookName: Value, quantity: Value, customerName: Value,
    category: Value, orderDate: Value, status: Value)

  /** The new-order form when the page opens and after an order is added. */
  function BlankOrder(): OrderFields {
    OrderFields(Undefined, Str(""), Str(""), Str(""), Str(""), Undefined, Str("active"))
  }

  function FetchError(): string { "Failed to fetch orders from the server." }

  // ---------------------------------------------------------------- the row mapping

  /** An order as the server sends it: the attributes of the `Order` model, camelCase. */
  function OrderJson(o: Order): Obj {
    map["id" := Num(o.id as real), "bookName" := Str(o.bookName), "quantity" := Num(o.quantity as real),
        "customerName" := Str(o.customerName), "category" := Str(o.category),
        "orderDate" := Str(o.orderDate), "status" := Str(o.status)]
  }

  /** `order.category || "N/A"`. */
  function CategoryOrNA(v: Value): (r: Value)
    ensures Truthy(v) ==> r == v
    ensures !Truthy(v) ==> r == Str("N/A")
  {
    if Truthy(v) then v else Str("N/A")
  }

  /** The mapping as written, which reads `book_name`, `customer_name` and `order_date`. */
  function MapRowAsWritten(o: Obj): OrderFields {
    OrderFields(Field(o, "id"), Field(o, "book_name"), Field(o, "quantity"), Field(o, "customer_name"),
                CategoryOrNA(Field(o, "category")), Field(o, "order_date"), Field(o, "status"))
  }

  /** The server's rows have no snake_case keys, so the mapping as written loses three fields. */
  lemma MappingAsWrittenLosesFields(o: Order)
    ensures MapRowAsWritten(OrderJson(o)).bookName == Undefined
    ensures MapRowAsWritten(OrderJson(o)).customerName == Undefined
    ensures MapRowAsWritten(OrderJson(o)).orderDate == Undefined
  {
  }

  /** The mapping reading the keys the server sends. */
  function MapRow(o: Obj): OrderFields {
    OrderFields(Field(o, "id"), Field(o, "bookName"), Field(o, "quantity"), Field(o, "customerName"),
                CategoryOrNA(Field(o, "category")), Field(o, "orderDate"), Field(o, "status"))
  }

  /** A server row keeps every field; only an empty category shows as "N/A". */
  lemma MappingKeepsFields(o: Order)
    ensures MapRow(OrderJson(o)) == OrderFields(
      Num(o.id as real), Str(o.bookName), Num(o.quantity as real), Str(o.customerName),
      if o.category == "" then Str("N/A") else Str(o.category), Str(o.orderDate), Str(o.status))
  {
  }

  /** `data.map(...)` as written: one row per element, in order. */
  function MapRowsAsWritten(rows: seq<Obj>): (r: seq<OrderFields>)
    ensures |r| == |rows| && forall i :: 0 <= i < |rows| ==> r[i] == MapRowAsWritten(rows[i])
  {
    seq(|rows|, i requires 0 <= i < |rows| => MapRowAsWritten(rows[i]))
  }

  /** `data.map(...)` with the corrected mapping. */
  function MapRows(rows: seq<Obj>): (r: seq<OrderFields>)
    ensures |r| == |rows| && forall i :: 0 <= i < |rows| ==> r[i] == MapRow(rows[i])
  {
    seq(|rows|, i requires 0 <= i < |rows| => MapRow(rows[i]))
  }

  // ---------------------------------------------------------------- status labels

  /** `statusDisplayMap[status]`. */
  function DisplayOf(status: string): Option<string> {
    if status == "active" then Some("Order Pending")
    else if status == "customs" then Some("Customs")
    else if status == "completed" then Some("Completed")
    else if status == "cancelled" then Some("Cancelled")
    else None
  }

  /** `statusValueMap[label]`. */
  function ValueOf(text: string): Option<string> {
    if text == "Order Pending" then Some("active")
    else if text == "Customs" then Some("customs")
    else if text == "Completed" then Some("completed")
    else if text == "Cancelled" then Some("cancelled")
    else None
  }

  function KnownStatuses(): set<string> { {"active", "customs", "completed", "cancelled"} }

  /** The two maps are inverse to each other. */
  lemma StatusMapsInverse(status: string, text: string)
    ensures DisplayOf(status).Some? <==> status in KnownStatuses()
    ensures DisplayOf(status).Some? ==> ValueOf(DisplayOf(status).value) == Some(status)
    ensures ValueOf(text).Some? ==> DisplayOf(ValueOf(text).value) == Some(text)
  {
  }

  /** `statusDisplayMap[order.status] || order.status`: a status with no label is shown raw. */
  function Label(status: Value): (l: Value)
    ensures status.Str? && DisplayOf(status.s).Some? ==> l == Str(DisplayOf(status.s).value)
    ensures !(status.Str? && DisplayOf(status.s).Some?) ==> l == status
  {
    if status.Str? && DisplayOf(status.s).Some? then Str(DisplayOf(status.s).value) else status
  }

  function Labels(orders: seq<OrderFields>): (ls: seq<Value>)
    ensures |ls| == |orders| && forall i :: 0 <= i < |orders| ==> ls[i] == Label(orders[i].status)
  {
    seq(|orders|, i requires 0 <= i < |orders| => Label(orders[i].status))
  }

  /** `["All", ...new Set(labels)]`: "All", then each label once. */
  function UniqueStatuses(orders: seq<OrderFields>): (r: seq<Value>)
    ensures |r| >= 1 && r[0] == Str("All") && NoDup(r[1..])
    ensures forall i :: 0 <= i < |orders| ==> Label(orders[i].status) in r[1..]
    ensures forall i :: 1 <= i < |r| ==> r[i] in Labels(orders)
  {
    var d := Distinct(Labels(orders));
    assert ([Str("All")] + d)[1..] == d;
    forall i | 0 <= i < |orders| ensures Label(orders[i].status) in d {
      assert Labels(orders)[i] == Label(orders[i].status);
    }
    [Str("All")] + d
  }

  /** The labels after "All" follow the order in which they first occur. */
  lemma UniqueStatusesInFirstOccurrenceOrder(orders: seq<OrderFields>)
    ensures var r := UniqueStatuses(orders)[1..];
      forall i, j :: 0 <= i < j < |r| ==> FirstIndex(Labels(orders), r[i]) < FirstIndex(Labels(orders), r[j])
  {
    var d := Distinct(Labels(orders));
    assert UniqueStatuses(orders)[1..] == d;
    DistinctKeepsFirstOccurrenceOrder(Labels(orders));
  }

  // ---------------------------------------------------------------- the status filter

  /** `statusValueMap[filter]`, `undefined` for a filter that is not a label. */
  function LookupValue(filter: string): (v: Value)
    ensures v == Undefined || v.Str?
  {
    match ValueOf(filter)
    case Some(s) => Str(s)
    case None => Undefined
  }

  /** `order.status === statusValueMap[filter] || order.status === filter.toLowerCase()`. */
  function Matches(filter: string): OrderFields -> bool {
    (o: OrderFields) => o.status == LookupValue(filter) || o.status == Str(ToLower(filter))
  }

  /** `filteredOrders`. */
  function FilteredOrders(orders: seq<OrderFields>, filter: string): (r: seq<OrderFields>)
    ensures filter == "All" ==> r == orders
    ensures filter != "All" ==> forall i :: 0 <= i < |r| ==> Matches(filter)(r[i]) && r[i] in orders
    ensures filter != "All" ==> forall i :: 0 <= i < |orders| && Matches(filter)(orders[i]) ==> orders[i] in r
  {
    if filter == "All" then orders else Filter(orders, Matches(filter))
  }

  /** `handleFilterSelect` as written: "All" is kept, any other label is lower-cased. */
  function FilterValueAsWritten(text: string): (f: string)
    ensures text == "All" ==> f == "All"
    ensures text != "All" ==> f == ToLower(text)
  {
    if text == "All" then "All" else ToLower(text)
  }

  /** The filter kept as the label picked, so that `statusValueMap` can find it. */
  function FilterValue(text: string): (f: string)
    ensures f == text
  {
    text
  }

  /**
   * Every key of `statusValueMap` starts with a capital, so a lower-cased
   * label is never found there.
   */
  lemma LoweredLabelIsNoKey(text: string)
    ensures LookupValue(ToLower(text)) == Undefined
  {
    LowerHasNoCapital(text, "Order Pending", 0);
    LowerHasNoCapital(text, "Customs", 0);
    LowerHasNoCapital(text, "Completed", 0);
    LowerHasNoCapital(text, "Cancelled", 0);
  }

  /** Picking "Order Pending" as written shows no order whose status is "active". */
  lemma PendingHiddenAsWritten(orders: seq<OrderFields>)
    ensures forall i :: 0 <= i < |FilteredOrders(orders, FilterValueAsWritten("Order Pending"))| ==>
      FilteredOrders(orders, FilterValueAsWritten("Order Pending"))[i].status != Str("active")
  {
    var f := FilterValueAsWritten("Order Pending");
    LoweredLabelIsNoKey("Order Pending");
    assert f != "All" by {
      assert f[0] == 'o';
    }
    assert Str(ToLower(f)) != Str("active") by {
      assert ToLower(f)[0] == 'o';
    }
  }

  /** The smallest case: one pending order, and picking its label shows nothing. */
  lemma PendingOrderHiddenAsWritten(o: OrderFields)
    requires o.status == Str("active")
    ensures Label(o.status) == Str("Order Pending")
    ensures FilteredOrders([o], FilterValueAsWritten("Order Pending")) == []
  {
    PendingHiddenAsWritten([o]);
  }

  /**
   * With the label kept verbatim, picking the label of an order's status
   * shows that order, for the four known statuses and for any unmapped status
   * already in lower case.
   */
  lemma PickedLabelShowsItsOrders(orders: seq<OrderFields>, j: nat)
    requires j < |orders| && orders[j].status.Str?
    requires orders[j].status.s in KnownStatuses() || ToLower(orders[j].status.s) == orders[j].status.s
    ensures Label(orders[j].status).Str?
    ensures orders[j] in FilteredOrders(orders, FilterValue(Label(orders[j].status).s))
  {
    var s := orders[j].status.s;
    var f := FilterValue(Label(orders[j].status).s);
    if s in KnownStatuses() {
      StatusMapsInverse(s, f);
      assert Matches(f)(orders[j]);
    } else {
      assert DisplayOf(s).None?;
      assert Matches(f)(orders[j]);
    }
  }

  // ---------------------------------------------------------------- add and edit

  /** The values an add or edit sends, before they are given their JSON keys. */
  datatype Prepared = Prepared(
    bookName: string, quantity: Value, customerName: Value,
    category: string, orderDate: string, status: Value)

  /** The guard: six truthy fields and a date. */
  predicate FieldsFilled(f: OrderFields, date: PickedDate) {
    && Truthy(f.bookName) && Truthy(f.quantity) && Truthy(f.customerName)
    && Truthy(f.category) && date != NoDate && Truthy(f.status)
  }

  /**
   * Pressing add or edit. A missing field shows the alert and sends nothing.
   * Otherwise `toISOString` throws on an invalid date and `trim` on a book
   * name or category that is not a string, both before the request; else
   * the names are trimmed, the quantity parsed and the date cut to its day.
   */
  function Prepare(f: OrderFields, date: PickedDate): (r: Submission<Prepared>)
    ensures r == Blocked <==> !FieldsFilled(f, date)
    ensures r == Crashed <==>
      FieldsFilled(f, date) && (date == InvalidDate || !f.bookName.Str? || !f.category.Str?)
    ensures r.Sent? ==> date.Day? && f.bookName.Str? && f.category.Str?
    ensures r.Sent? ==> r.payload.bookName == Trim(f.bookName.s) && r.payload.category == Trim(f.category.s)
    ensures r.Sent? ==> r.payload.quantity == IntJson(ParseValue(f.quantity)) && r.payload.orderDate == date.iso
    ensures r.Sent? ==> r.payload.customerName == f.customerName && r.payload.status == f.status
  {
    if !FieldsFilled(f, date) then Blocked
    else if date == InvalidDate || !f.bookName.Str? || !f.category.Str? then Crashed
    else Sent(Prepared(Trim(f.bookName.s), IntJson(ParseValue(f.quantity)), f.customerName,
                       Trim(f.category.s), date.iso, f.status))
  }

  /** The JSON body as written, with the keys of the old snake_case database. */
  function SnakeBody(p: Prepared): Obj {
    map["book_name" := Str(p.bookName), "quantity" := p.quantity, "customer_name" := p.customerName,
        "category" := Str(p.category), "order_date" := Str(p.orderDate), "status" := p.status]
  }

  /** The JSON body with the keys the server reads. */
  function CamelBody(p: Prepared): Obj {
    map["bookName" := Str(p.bookName), "quantity" := p.quantity, "customerName" := p.customerName,
        "category" := Str(p.category), "orderDate" := Str(p.orderDate), "status" := p.status]
  }

  function AsText(v: Value): Option<string> {
    if v.Str? then Some(v.s) else None
  }

  function AsInt(v: Value): Option<int> {
    if v.Num? && v.x.Floor as real == v.x then Some(v.x.Floor) else None
  }

  /** The fields the server's handlers take from a parsed JSON body. */
  function Received(body: Obj): (b: OrderBody)
    ensures b.keyCount == |body|
  {
    OrderBody(|body|, AsText(Field(body, "bookName")), AsInt(Field(body, "quantity")),
              AsText(Field(body, "customerName")), AsText(Field(body, "category")),
              AsText(Field(body, "orderDate")), AsText(Field(body, "status")))
  }

  /** Every body sent as written lacks the fields the server requires: add and edit both get 400. */
  lemma SnakeBodyRejected(p: Prepared)
    ensures ValidateNewOrder(Received(SnakeBody(p))) == Some(MissingFields)
    ensures ValidateOrderFields(Received(SnakeBody(p))) == Some(MissingFields)
  {
    assert "bookName" !in SnakeBody(p);
    assert |SnakeBody(p)| != 0 by {
      assert "status" in SnakeBody(p);
    }
  }

  /**
   * A form whose trimmed names are not empty, whose quantity parses to a
   * non-zero integer and whose day has the `YYYY-MM-DD` shape is accepted by
   * the server once the body has the keys it reads.
   */
  lemma CamelBodyAccepted(f: OrderFields, date: PickedDate)
    requires Prepare(f, date).Sent?
    requires Trim(f.bookName.s) != "" && Trim(f.category.s) != ""
    requires ParseValue(f.quantity).Some? && ParseValue(f.quantity).value != 0
    requires f.customerName.Str? && f.status.Str? && IsDateFormat(date.iso)
    ensures ValidateNewOrder(Received(CamelBody(Prepare(f, date).payload))) == None
    ensures ValidateOrderFields(Received(CamelBody(Prepare(f, date).payload))) == None
  {
    var p := Prepare(f, date).payload;
    CompleteBodyAccepted(p, ParseValue(f.quantity).value);
  }

  lemma CompleteBodyAccepted(p: Prepared, n: int)
    requires p.bookName != "" && p.category != "" && n != 0 && p.quantity == Num(n as real)
    requires Truthy(p.customerName) && p.customerName.Str? && Truthy(p.status) && p.status.Str?
    requires IsDateFormat(p.orderDate)
    ensures ValidateNewOrder(Received(CamelBody(p))) == None
    ensures ValidateOrderFields(Received(CamelBody(p))) == None
  {
    assert (n as real).Floor == n;
    assert "status" in CamelBody(p);
  }


  /** The add request the page sends, with the keys as written. */
  function AddRequest(f: OrderFields, date: PickedDate): Submission<Obj> {
    match Prepare(f, date)
    case Blocked => Blocked
    case Crashed => Crashed
    case Sent(p) => Sent(SnakeBody(p))
  }

  /** The edit request: the order's id for the URL and the body as written; no order at all throws. */
  function EditRequest(e: Option<OrderFields>, date: PickedDate): Submission<(Value, Obj)> {
    match e
    case None => Crashed
    case Some(f) =>
      match Prepare(f, date)
      case Blocked => Blocked
      case Crashed => Crashed
      case Sent(p) => Sent((f.id, SnakeBody(p)))
  }

  /** Whatever the form holds, an add request the page sends is refused by the order create. */
  lemma SentAddRejected(f: OrderFields, date: PickedDate)
    requires AddRequest(f, date).Sent?
    ensures ValidateNewOrder(Received(AddRequest(f, date).payload)) == Some(MissingFields)
  {
    SnakeBodyRejected(Prepare(f, date).payload);
  }

  /** Whatever the form holds, an edit request the page sends is refused by the order update. */
  lemma SentEditRejected(e: Option<OrderFields>, date: PickedDate)
    requires EditRequest(e, date).Sent?
    ensures ValidateOrderFields(Received(EditRequest(e, date).payload.1)) == Some(MissingFields)
  {
    SnakeBodyRejected(Prepare(e.value, date).payload);
  }

  /**
   * Saving an order fetched from the server without touching the form: the
   * mapping as written left its book and customer names out, so the guard
   * blocks the request.
   */
  lemma EditOfFetchedOrderBlockedAsWritten(o: Order, date: PickedDate)
    ensures EditRequest(Some(MapRowAsWritten(OrderJson(o))), date) == Blocked
  {
    MappingAsWrittenLosesFields(o);
  }

  function OrderIdOf(o: OrderFields): Value { o.id }

  /**
   * An "active" order selected under "All" cannot be deleted once "Order
   * Pending" is picked as written: the filtered list is empty, so the index
   * is past its end and the batch fails.
   */
  lemma PendingSelectionGoesStale(o: OrderFields)
    requires o.status == Str("active")
    ensures DeleteTargets([0], FilteredOrders([o], FilterValueAsWritten("Order Pending")), OrderIdOf) == Deletes([], true)
  {
    PendingOrderHiddenAsWritten(o);
  }

  // ---------------------------------------------------------------- the page

  class OrdersPageState {
    var orders: seq<OrderFields>
    var selected: seq<int>
    var filterStatus: string
    var error: Option<string>
    var loading: bool
    var newOrder: OrderFields
    var editOrder: Option<OrderFields>
    var selectedDate: PickedDate
    var addOpen: bool
    var editOpen: bool

    /** The orders on screen. */
    function Visible(): seq<OrderFields>
      reads this
    {
      FilteredOrders(orders, filterStatus)
    }

    /** The state when the page mounts; `today` is the day of `new Date()`. */
    constructor (today: string)
      ensures orders == [] && selected == [] && filterStatus == "All" && error == None && loading
      ensures newOrder == BlankOrder() && editOrder == None && selectedDate == Day(today)
      ensures !addOpen && !editOpen
    {
      orders, selected, filterStatus, error, loading := [], [], "All", None, true;
      newOrder, editOrder, selectedDate := BlankOrder(), None, Day(today);
      addOpen, editOpen := false, false;
    }

    /** `fetchOrders`, given what the request returned. */
    method FetchOrders(response: FetchResponse<Obj>)
      modifies this`orders, this`error, this`loading
      ensures response.Rows? ==> orders == MapRowsAsWritten(response.rows) && error == None
      ensures !response.Rows? ==> orders == [] && error == Some(FetchError())
      ensures !loading
    {
      loading := true;
      error := None;
      if response.Rows? {
        orders := MapRowsAsWritten(response.rows);
      } else {
        error := Some(FetchError());
        orders := [];
      }
      loading := false;
    }

    /** `toggleSelect`. */
    method ToggleSelect(index: int)
      modifies this`selected
      ensures selected == Toggle(old(selected), index)
    {
      selected := Toggle(selected, index);
    }

    /** `handleFilterSelect`: "All" or the label lower-cased; the selection is left as it was. */
    method HandleFilterSelect(text: string)
      modifies this`filterStatus
      ensures filterStatus == FilterValueAsWritten(text)
      ensures text == "All" ==> Visible() == orders
      ensures text == "Order Pending" ==> forall i :: 0 <= i < |Visible()| ==> Visible()[i].status != Str("active")
    {
      filterStatus := FilterValueAsWritten(text);
      PendingHiddenAsWritten(orders);
    }

    /**
     * `handleAddOrder`; `ok` is whether the server answered 2xx and `today`
     * the day of the fresh `new Date()`. A success clears the form, resets
     * the date and closes the dialog; the list is then fetched again.
     */
    method HandleAddOrder(ok: bool, today: string) returns (request: Submission<Obj>)
      modifies this`newOrder, this`selectedDate, this`addOpen
      ensures request == AddRequest(old(newOrder), old(selectedDate))
      ensures request.Sent? && ok ==> newOrder == BlankOrder() && selectedDate == Day(today) && !addOpen
      ensures !(request.Sent? && ok) ==>
        newOrder == old(newOrder) && selectedDate == old(selectedDate) && addOpen == old(addOpen)
    {
      request := AddRequest(newOrder, selectedDate);
      if request.Sent? && ok {
        newOrder := BlankOrder();
        selectedDate := Day(today);
        addOpen := false;
      }
    }

    /** `handleEditOrder`: a success drops the edited order, resets the date and closes the dialog. */
    method HandleEditOrder(ok: bool, today: string) returns (request: Submission<(Value, Obj)>)
      modifies this`editOrder, this`selectedDate, this`editOpen
      ensures request == EditRequest(old(editOrder), old(selectedDate))
      ensures request.Sent? && ok ==> editOrder == None && selectedDate == Day(today) && !editOpen
      ensures !(request.Sent? && ok) ==>
        editOrder == old(editOrder) && selectedDate == old(selectedDate) && editOpen == old(editOpen)
    {
      var sent := EditRequest(editOrder, selectedDate);
      request := sent;
      if sent.Sent? && ok {
        editOrder := None;
        selectedDate := Day(today);
        editOpen := false;
      }
    }

    /** `openEditModal`; `picked` is `new Date(order.orderDate)`, never `null`. */
    method OpenEditModal(order: OrderFields, picked: PickedDate)
      requires picked != NoDate
      modifies this`editOrder, this`selectedDate, this`editOpen
      ensures editOrder == Some(order) && selectedDate == picked && editOpen
    {
      editOrder := Some(order);
      selectedDate := picked;
      editOpen := true;
    }

    /**
     * `handleDeleteOrders`; `allOk` is whether every DELETE answered 2xx. The
     * selection is cleared only when the whole batch succeeds.
     */
    method HandleDeleteOrders(allOk: bool) returns (outcome: DeleteOutcome)
      modifies this`selected
      ensures outcome == DeleteTargets(old(selected), FilteredOrders(old(orders), old(filterStatus)), OrderIdOf)
      ensures outcome.Deletes? && !outcome.stale && allOk ==> selected == []
      ensures !(outcome.Deletes? && !outcome.stale && allOk) ==> selected == old(selected)
    {
      outcome := DeleteTargets(selected, Visible(), OrderIdOf);
      if outcome.Deletes? && !outcome.stale && allOk {
        selected := [];
      }
    }
  }
}
