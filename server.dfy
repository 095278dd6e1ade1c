/**
 * The Express server of the inventory: the Book, Order and Activity tables,
 * the validation of request bodies, and the six handlers that change the
 * tables (create, update and delete, for books and for orders). Each table
 * is a sequence of rows in id order with an auto-increment counter; the
 * activity log is a table like the others.
 */
module Server {
  import opened Base
  import opened Js

  // ---------------------------------------------------------------- rows

  datatype Book = Book(id: int, name: string, category: string, amount: int, cost: real, date: string)

  datatype Order = Order(
    id: int, bookName: string, quantity: int, customerName: string,
    category: string, orderDate: string, status: string)

  /** A log entry; `createdAt` is the insertion time in milliseconds. */
  datatype Activity = Activity(id: int, kind: string, message: string, createdAt: int)

  datatype ActivityType = BookAdded | BookUpdated | BookDeleted | OrderReceived | OrderUpdated | OrderDeleted

  /** The `type` column written for each kind of change. */
  function TypeName(t: ActivityType): string {
    match t
    case BookAdded => "book_added"
    case BookUpdated => "book_updated"
    case BookDeleted => "book_deleted"
    case OrderReceived => "order_received"
    case OrderUpdated => "order_updated"
    case OrderDeleted => "order_deleted"
  }

  function BookId(b: Book): int { b.id }
  function OrderId(o: Order): int { o.id }
  function ActivityId(a: Activity): int { a.id }

  /** Ids strictly increase along the table, so no id occurs twice. */
  predicate IdsIncreasing<T>(rows: seq<T>, idOf: T -> int) {
    forall i, j :: 0 <= i < j < |rows| ==> idOf(rows[i]) < idOf(rows[j])
  }

  /** Every id is below the next id the counter hands out. */
  predicate IdsBelow<T>(rows: seq<T>, idOf: T -> int, next: int) {
    forall i :: 0 <= i < |rows| ==> idOf(rows[i]) < next
  }

  /** `findByPk`: the position of the row with primary key `id`, if any. */
  function FindById<T>(rows: seq<T>, idOf: T -> int, id: int): (r: Option<nat>)
    ensures r.Some? ==> r.value < |rows| && idOf(rows[r.value]) == id
    ensures r.None? <==> forall i :: 0 <= i < |rows| ==> idOf(rows[i]) != id
  {
    if rows == [] then None
    else if idOf(rows[0]) == id then Some(0)
    else
      match FindById(rows[1..], idOf, id)
      case None => None
      case Some(i) => Some(i + 1)
  }

  /** With distinct ids, the row found is the only row with that id. */
  lemma FindByIdUnique<T>(rows: seq<T>, idOf: T -> int, id: int, j: nat)
    requires IdsIncreasing(rows, idOf) && j < |rows| && idOf(rows[j]) == id
    ensures FindById(rows, idOf, id) == Some(j)
  {
  }

  /** Removing a row keeps the ids increasing and below the counter. */
  lemma RemoveKeepsIds<T>(rows: seq<T>, idOf: T -> int, next: int, i: nat)
    requires i < |rows| && IdsIncreasing(rows, idOf) && IdsBelow(rows, idOf, next)
    ensures IdsIncreasing(rows[..i] + rows[i + 1..], idOf)
    ensures IdsBelow(rows[..i] + rows[i + 1..], idOf, next)
  {
    var r := rows[..i] + rows[i + 1..];
    forall a, b | 0 <= a < b < |r| ensures idOf(r[a]) < idOf(r[b]) {
      var a' := if a < i then a else a + 1;
      var b' := if b < i then b else b + 1;
      assert r[a] == rows[a'] && r[b] == rows[b'];
    }
    forall a | 0 <= a < |r| ensures idOf(r[a]) < next {
      assert r[a] == rows[if a < i then a else a + 1];
    }
  }

  /** Appending a row with the counter's id keeps the ids increasing and below the next counter. */
  lemma AppendKeepsIds<T>(rows: seq<T>, idOf: T -> int, next: int, row: T)
    requires IdsIncreasing(rows, idOf) && IdsBelow(rows, idOf, next) && idOf(row) == next
    ensures IdsIncreasing(rows + [row], idOf) && IdsBelow(rows + [row], idOf, next + 1)
  {
  }

  // ---------------------------------------------------------------- request bodies

  /**
   * The fields a book request may carry, as parsed from JSON; `None` is a
   * missing field or `null`.
   */
  datatype BookBody = BookBody(
    name: Option<string>, category: Option<string>, amount: Option<int>,
    cost: Option<real>, date: Option<string>)

  /**
   * The fields an order request may carry, and `keyCount`, the number of own
   * properties of the parsed body (0 also when there is no body).
   */
  datatype OrderBody = OrderBody(
    keyCount: nat, bookName: Option<string>, quantity: Option<int>, customerName: Option<string>,
    category: Option<string>, orderDate: Option<string>, status: Option<string>)

  /** A JavaScript value that is not falsy: present, not null and not `""`. */
  predicate TruthyText(v: Option<string>) {
    v.Some? && v.value != ""
  }

  /** A number that is not falsy: present, not null and not 0. */
  predicate TruthyInt(v: Option<int>) {
    v.Some? && v.value != 0
  }

  predicate TruthyReal(v: Option<real>) {
    v.Some? && v.value != 0.0
  }

  /** `/^\d{4}-\d{2}-\d{2}$/.test(s)`: four digits, a dash, two digits, a dash, two digits, nothing else. */
  predicate IsDateFormat(s: string) {
    && |s| == 10 && s[4] == '-' && s[7] == '-'
    && forall i :: 0 <= i < 10 && i != 4 && i != 7 ==> IsDigit(s[i])
  }

  /** One position of a regular expression made of digit classes and literal characters. */
  datatype Atom = AnyDigit | Literal(c: char)

  predicate AtomMatches(a: Atom, c: char) {
    match a
    case AnyDigit => IsDigit(c)
    case Literal(x) => c == x
  }

  function Repeat(a: Atom, n: nat): (p: seq<Atom>)
    ensures |p| == n && forall i :: 0 <= i < n ==> p[i] == a
  {
    if n == 0 then [] else [a] + Repeat(a, n - 1)
  }

  /** `\d{4}-\d{2}-\d{2}`, one atom per character. */
  function DatePattern(): seq<Atom> {
    Repeat(AnyDigit, 4) + [Literal('-')] + Repeat(AnyDigit, 2) + [Literal('-')] + Repeat(AnyDigit, 2)
  }

  /** A pattern anchored at both ends (`^...$`) matches the whole string, atom by atom. */
  predicate FullMatch(p: seq<Atom>, s: string)
    decreases p
  {
    if p == [] then s == []
    else s != [] && AtomMatches(p[0], s[0]) && FullMatch(p[1..], s[1..])
  }

  lemma {:induction false} FullMatchPositions(p: seq<Atom>, s: string)
    ensures FullMatch(p, s) <==> |s| == |p| && forall i :: 0 <= i < |p| ==> AtomMatches(p[i], s[i])
    decreases p
  {
    if p != [] && s != [] {
      FullMatchPositions(p[1..], s[1..]);
      if |s| == |p| && forall i :: 0 <= i < |p| ==> AtomMatches(p[i], s[i]) {
        assert forall i :: 0 <= i < |p| - 1 ==> p[1..][i] == p[i + 1] && s[1..][i] == s[i + 1];
      }
    }
  }

  /** The character test of the server is exactly the regular expression it stands for. */
  lemma DateFormatIsPattern(s: string)
    ensures IsDateFormat(s) <==> FullMatch(DatePattern(), s)
  {
    FullMatchPositions(DatePattern(), s);
    var p := DatePattern();
    assert forall i :: 0 <= i < 10 && i != 4 && i != 7 ==> p[i] == AnyDigit;
    assert p[4] == Literal('-') && p[7] == Literal('-');
  }

  datatype Rejection = MissingFields | BadDate | EmptyBody

  /** The `error` text of a 400 response. */
  function ErrorText(r: Rejection): string {
    match r
    case MissingFields => "All fields are required"
    case BadDate => "Invalid date format. Use YYYY-MM-DD."
    case EmptyBody => "Request body is empty or invalid"
  }

  predicate BookComplete(b: BookBody) {
    TruthyText(b.name) && TruthyText(b.category) && TruthyInt(b.amount) && TruthyReal(b.cost) && TruthyText(b.date)
  }

  /** The checks of a book create or update, in the order the handler makes them. */
  function ValidateBook(b: BookBody): (r: Option<Rejection>)
    ensures r.None? <==> BookComplete(b) && IsDateFormat(b.date.value)
    ensures r == Some(MissingFields) <==> !BookComplete(b)
    ensures r != Some(EmptyBody)
  {
    if !BookComplete(b) then Some(MissingFields)
    else if !IsDateFormat(b.date.value) then Some(BadDate)
    else None
  }

  /** A book with amount 0 or cost 0 is refused as incomplete, whatever else it holds. */
  lemma ZeroBookFieldsRejected(b: BookBody)
    requires b.amount == Some(0) || b.cost == Some(0.0)
    ensures ValidateBook(b) == Some(MissingFields)
  {
  }

  predicate OrderComplete(b: OrderBody) {
    && TruthyText(b.bookName) && TruthyInt(b.quantity) && TruthyText(b.customerName)
    && TruthyText(b.category) && TruthyText(b.orderDate) && TruthyText(b.status)
  }

  /** The field and date checks of an order create or update. */
  function ValidateOrderFields(b: OrderBody): (r: Option<Rejection>)
    ensures r.None? <==> OrderComplete(b) && IsDateFormat(b.orderDate.value)
    ensures r == Some(MissingFields) <==> !OrderComplete(b)
    ensures r != Some(EmptyBody)
  {
    if !OrderComplete(b) then Some(MissingFields)
    else if !IsDateFormat(b.orderDate.value) then Some(BadDate)
    else None
  }

  /** The checks of an order create: an empty body first, then the fields. */
  function ValidateNewOrder(b: OrderBody): (r: Option<Rejection>)
    ensures b.keyCount == 0 ==> r == Some(EmptyBody)
    ensures b.keyCount != 0 ==> r == ValidateOrderFields(b)
  {
    if b.keyCount == 0 then Some(EmptyBody) else ValidateOrderFields(b)
  }

  // ---------------------------------------------------------------- responses

  datatype Payload = ErrorJson(error: string) | BookJson(book: Book) | OrderJson(order: Order) | NoContent

  datatype Reply = Reply(status: nat, payload: Payload)

  function Rejected(r: Rejection): Reply {
    Reply(400, ErrorJson(ErrorText(r)))
  }

  function BookNotFound(): Reply { Reply(404, ErrorJson("Book not found")) }

  function OrderNotFound(): Reply { Reply(404, ErrorJson("Order not found")) }

  // ---------------------------------------------------------------- rows built from bodies

  function NewBook(id: int, b: BookBody): Book
    requires BookComplete(b)
  {
    Book(id, b.name.value, b.category.value, b.amount.value, b.cost.value, b.date.value)
  }

  /** `Order.create`: the book name and the category are stored trimmed. */
  function NewOrder(id: int, b: OrderBody): (o: Order)
    requires OrderComplete(b)
    ensures o.bookName == Trim(b.bookName.value) && o.category == Trim(b.category.value)
    ensures o.customerName == b.customerName.value && o.status == b.status.value
  {
    Order(id, Trim(b.bookName.value), b.quantity.value, b.customerName.value,
          Trim(b.category.value), b.orderDate.value, b.status.value)
  }

  /** `order.update`: every field as given, none trimmed. */
  function UpdatedOrder(id: int, b: OrderBody): Order
    requires OrderComplete(b)
  {
    Order(id, b.bookName.value, b.quantity.value, b.customerName.value,
          b.category.value, b.orderDate.value, b.status.value)
  }

  function BookAddedMessage(name: string): string {
    "New book \"" + name + "\" added to inventory"
  }

  function BookUpdatedMessage(name: string): string {
    "Book \"" + name + "\" updated"
  }

  function BookDeletedMessage(name: string): string {
    "Book \"" + name + "\" deleted from inventory"
  }

  function OrderReceivedMessage(customerName: string, bookName: string, category: string): string {
    "New order received from " + customerName + " for " + bookName + " (" + category + ")"
  }

  function OrderUpdatedMessage(customerName: string, bookName: string, category: string): string {
    "Order from " + customerName + " for " + bookName + " (" + category + ") updated"
  }

  function OrderDeletedMessage(customerName: string): string {
    "Order from " + customerName + " deleted"
  }

  // ---------------------------------------------------------------- the store

  /** The three tables and their auto-increment counters. */
  class Store {
    var books: seq<Book>
    var orders: seq<Order>
    var activities: seq<Activity>
    var nextBookId: int
    var nextOrderId: int
    var nextActivityId: int

    /** Each table is in id order, with every id below its counter. */
    ghost predicate Valid()
      reads this
    {
      && IdsIncreasing(books, BookId) && IdsBelow(books, BookId, nextBookId)
      && IdsIncreasing(orders, OrderId) && IdsBelow(orders, OrderId, nextOrderId)
      && IdsIncreasing(activities, ActivityId) && IdsBelow(activities, ActivityId, nextActivityId)
    }

    /** Empty tables; SQLite hands out ids from 1. */
    constructor ()
      ensures Valid()
      ensures books == [] && orders == [] && activities == []
      ensures nextBookId == 1 && nextOrderId == 1 && nextActivityId == 1
    {
      books, orders, activities := [], [], [];
      nextBookId, nextOrderId, nextActivityId := 1, 1, 1;
    }

    /** `Activity.create`: one entry with the next id, stamped `now`. */
    method Log(t: ActivityType, message: string, now: int)
      requires Valid()
      modifies this
      ensures Valid()
      ensures activities == old(activities) + [Activity(old(nextActivityId), TypeName(t), message, now)]
      ensures nextActivityId == old(nextActivityId) + 1
      ensures books == old(books) && orders == old(orders)
      ensures nextBookId == old(nextBookId) && nextOrderId == old(nextOrderId)
    {
      var entry := Activity(nextActivityId, TypeName(t), message, now);
      AppendKeepsIds(activities, ActivityId, nextActivityId, entry);
      activities := activities + [entry];
      nextActivityId := nextActivityId + 1;
    }

    /** `POST /api/books`. */
    method PostBook(body: BookBody, now: int) returns (reply: Reply)
      requires Valid()
      modifies this
      ensures Valid()
      ensures ValidateBook(body).Some? ==> reply == Rejected(ValidateBook(body).value) && unchanged(this)
      ensures ValidateBook(body).None? ==>
        && books == old(books) + [NewBook(old(nextBookId), body)]
        && nextBookId == old(nextBookId) + 1
        && activities == old(activities) + [Activity(old(nextActivityId), TypeName(BookAdded), BookAddedMessage(body.name.value), now)]
        && nextActivityId == old(nextActivityId) + 1
        && orders == old(orders) && nextOrderId == old(nextOrderId)
        && reply == Reply(201, BookJson(NewBook(old(nextBookId), body)))
    {
      var rejection := ValidateBook(body);
      if rejection.Some? {
        return Rejected(rejection.value);
      }
      var book := NewBook(nextBookId, body);
      AppendKeepsIds(books, BookId, nextBookId, book);
      books := books + [book];
      nextBookId := nextBookId + 1;
      Log(BookAdded, BookAddedMessage(body.name.value), now);
      reply := Reply(201, BookJson(book));
    }

    /** `PUT /api/books/:id`: validation first, then the lookup. */
    method PutBook(id: int, body: BookBody, now: int) returns (reply: Reply)
      requires Valid()
      modifies this
      ensures Valid()
      ensures ValidateBook(body).Some? ==> reply == Rejected(ValidateBook(body).value) && unchanged(this)
      ensures ValidateBook(body).None? && FindById(old(books), BookId, id).None? ==>
        reply == BookNotFound() && unchanged(this)
      ensures ValidateBook(body).None? && FindById(old(books), BookId, id).Some? ==>
        var i := FindById(old(books), BookId, id).value;
        && books == old(books)[i := NewBook(id, body)]
        && activities == old(activities) + [Activity(old(nextActivityId), TypeName(BookUpdated), BookUpdatedMessage(body.name.value), now)]
        && nextActivityId == old(nextActivityId) + 1
        && nextBookId == old(nextBookId) && orders == old(orders) && nextOrderId == old(nextOrderId)
        && reply == Reply(200, BookJson(NewBook(id, body)))
    {
      var rejection := ValidateBook(body);
      if rejection.Some? {
        return Rejected(rejection.value);
      }
      var found := FindById(books, BookId, id);
      if found.None? {
        return BookNotFound();
      }
      var i := found.value;
      var book := NewBook(id, body);
      books := books[i := book];
      Log(BookUpdated, BookUpdatedMessage(body.name.value), now);
      reply := Reply(200, BookJson(book));
    }

    /** `DELETE /api/books/:id`. */
    method DeleteBook(id: int, now: int) returns (reply: Reply)
      requires Valid()
      modifies this
      ensures Valid()
      ensures FindById(old(books), BookId, id).None? ==> reply == BookNotFound() && unchanged(this)
      ensures FindById(old(books), BookId, id).Some? ==>
        var i := FindById(old(books), BookId, id).value;
        && books == old(books)[..i] + old(books)[i + 1..]
        && activities == old(activities) + [Activity(old(nextActivityId), TypeName(BookDeleted), BookDeletedMessage(old(books)[i].name), now)]
        && nextActivityId == old(nextActivityId) + 1
        && nextBookId == old(nextBookId) && orders == old(orders) && nextOrderId == old(nextOrderId)
        && reply == Reply(204, NoContent)
    {
      var found := FindById(books, BookId, id);
      if found.None? {
        return BookNotFound();
      }
      var i := found.value;
      var book := books[i];
      RemoveKeepsIds(books, BookId, nextBookId, i);
      books := books[..i] + books[i + 1..];
      Log(BookDeleted, BookDeletedMessage(book.name), now);
      reply := Reply(204, NoContent);
    }

    /** `POST /api/orders`. */
    method PostOrder(body: OrderBody, now: int) returns (reply: Reply)
      requires Valid()
      modifies this
      ensures Valid()
      ensures ValidateNewOrder(body).Some? ==> reply == Rejected(ValidateNewOrder(body).value) && unchanged(this)
      ensures ValidateNewOrder(body).None? ==>
        && orders == old(orders) + [NewOrder(old(nextOrderId), body)]
        && nextOrderId == old(nextOrderId) + 1
        && activities == old(activities) + [Activity(old(nextActivityId), TypeName(OrderReceived),
             OrderReceivedMessage(body.customerName.value, body.bookName.value, body.category.value), now)]
        && nextActivityId == old(nextActivityId) + 1
        && books == old(books) && nextBookId == old(nextBookId)
        && reply == Reply(201, OrderJson(NewOrder(old(nextOrderId), body)))
    {
      var rejection := ValidateNewOrder(body);
      if rejection.Some? {
        return Rejected(rejection.value);
      }
      var order := NewOrder(nextOrderId, body);
      AppendKeepsIds(orders, OrderId, nextOrderId, order);
      orders := orders + [order];
      nextOrderId := nextOrderId + 1;
      Log(OrderReceived, OrderReceivedMessage(body.customerName.value, body.bookName.value, body.category.value), now);
      reply := Reply(201, OrderJson(order));
    }

    /** `PUT /api/orders/:id`: no empty-body check; validation, then the lookup. */
    method PutOrder(id: int, body: OrderBody, now: int) returns (reply: Reply)
      requires Valid()
      modifies this
      ensures Valid()
      ensures ValidateOrderFields(body).Some? ==> reply == Rejected(ValidateOrderFields(body).value) && unchanged(this)
      ensures ValidateOrderFields(body).None? && FindById(old(orders), OrderId, id).None? ==>
        reply == OrderNotFound() && unchanged(this)
      ensures ValidateOrderFields(body).None? && FindById(old(orders), OrderId, id).Some? ==>
        var i := FindById(old(orders), OrderId, id).value;
        && orders == old(orders)[i := UpdatedOrder(id, body)]
        && activities == old(activities) + [Activity(old(nextActivityId), TypeName(OrderUpdated),
             OrderUpdatedMessage(body.customerName.value, body.bookName.value, body.category.value), now)]
        && nextActivityId == old(nextActivityId) + 1
        && nextOrderId == old(nextOrderId) && books == old(books) && nextBookId == old(nextBookId)
        && reply == Reply(200, OrderJson(UpdatedOrder(id, body)))
    {
      var rejection := ValidateOrderFields(body);
      if rejection.Some? {
        return Rejected(rejection.value);
      }
      var found := FindById(orders, OrderId, id);
      if found.None? {
        return OrderNotFound();
      }
      var i := found.value;
      var order := UpdatedOrder(id, body);
      orders := orders[i := order];
      Log(OrderUpdated, OrderUpdatedMessage(body.customerName.value, body.bookName.value, body.category.value), now);
      reply := Reply(200, OrderJson(order));
    }

    /** `DELETE /api/orders/:id`. */
    method DeleteOrder(id: int, now: int) returns (reply: Reply)
      requires Valid()
      modifies this
      ensures Valid()
      ensures FindById(old(orders), OrderId, id).None? ==> reply == OrderNotFound() && unchanged(this)
      ensures FindById(old(orders), OrderId, id).Some? ==>
        var i := FindById(old(orders), OrderId, id).value;
        && orders == old(orders)[..i] + old(orders)[i + 1..]
        && activities == old(activities) + [Activity(old(nextActivityId), TypeName(OrderDeleted), OrderDeletedMessage(old(orders)[i].customerName), now)]
        && nextActivityId == old(nextActivityId) + 1
        && nextOrderId == old(nextOrderId) && books == old(books) && nextBookId == old(nextBookId)
        && reply == Reply(204, NoContent)
    {
      var found := FindById(orders, OrderId, id);
      if found.None? {
        return OrderNotFound();
      }
      var i := found.value;
      var order := orders[i];
      RemoveKeepsIds(orders, OrderId, nextOrderId, i);
      orders := orders[..i] + orders[i + 1..];
      Log(OrderDeleted, OrderDeletedMessage(order.customerName), now);
      reply := Reply(204, NoContent);
    }
  }
}
