/** The checkout route handler `POST`: three early-return guards, then one
    `pending` order built from the lines the client sent. As written, the
    handler reads no product, checks no stock and trusts the client's prices. */
module Checkout {
  import opened Wrappers
  import opened Sequences
  import opened Cart
  import opened Shop

  datatype User = User(id: string, email: string)

  datatype OrderItem = OrderItem(productId: string, quantity: int, price: int)

  datatype Order = Order(id: nat, userId: string, total: int, status: string, orderItems: seq<OrderItem>)

  /** The `items` field of the parsed request body. `Absent` stands for every
      falsy value (missing, `null`, `0`, `""`), `NotAnArray` for every truthy
      value that is not an array. */
  datatype ItemsField = Absent | NotAnArray | ArrayOf(lines: seq<CartItem>)

  /** The request body: `Malformed` when `request.json()` throws or yields
      something that cannot be destructured. */
  datatype RequestBody = Malformed | Json(items: ItemsField)

  datatype Payload = ErrorMessage(error: string) | OrderCreated(message: string, orderId: nat)

  datatype Response = Response(status: int, payload: Payload)

  /** `session?.user?.email` is truthy: present and not the empty string. */
  predicate SignedIn(email: Option<string>) {
    email.Some? && email.value != ""
  }

  /** The cart lines pass the handler's check: a non-empty array. */
  predicate HasLines(items: ItemsField) {
    items.ArrayOf? && |items.lines| > 0
  }

  /** The guards of `POST`, in the handler's order: session, user lookup, body,
      items. Success carries the looked-up user and the client's lines. */
  function Validate(email: Option<string>, users: map<string, User>, body: RequestBody): (r: Result<(User, seq<CartItem>), Response>)
    ensures r.Failure? && r.error.status == 401 <==> !SignedIn(email)
    ensures r.Failure? && r.error.status == 404 <==> SignedIn(email) && email.value !in users
    ensures r.Failure? && r.error.status == 500 <==> SignedIn(email) && email.value in users && body.Malformed?
    ensures r.Failure? && r.error.status == 400 <==>
              SignedIn(email) && email.value in users && body.Json? && !HasLines(body.items)
    ensures r.Success? <==> SignedIn(email) && email.value in users && body.Json? && HasLines(body.items)
    ensures r.Success? ==> r.value.0 == users[email.value] && r.value.1 == body.items.lines && |r.value.1| > 0
  {
    if !SignedIn(email) then
      Failure(Response(401, ErrorMessage("Unauthorized")))
    else if email.value !in users then
      Failure(Response(404, ErrorMessage("User not found")))
    else if body.Malformed? then
      Failure(Response(500, ErrorMessage("Internal server error")))
    else if !HasLines(body.items) then
      Failure(Response(400, ErrorMessage("No items in cart")))
    else
      Success((users[email.value], body.items.lines))
  }

  function ToOrderItem(line: CartItem): OrderItem {
    OrderItem(line.id, line.qty, line.price)
  }

  /** The nested `orderItems.create`: one order item per cart line, in order. */
  function OrderItemsOf(lines: seq<CartItem>): (r: seq<OrderItem>)
    ensures |r| == |lines|
    ensures forall i :: 0 <= i < |lines| ==>
              r[i].productId == lines[i].id && r[i].quantity == lines[i].qty && r[i].price == lines[i].price
  {
    Map(lines, ToOrderItem)
  }

  /** What the stored order items add up to: the sum of `price * quantity`. */
  function ItemsTotal(ois: seq<OrderItem>): int {
    if ois == [] then 0 else ois[0].price * ois[0].quantity + ItemsTotal(ois[1..])
  }

  /** The order's `total`, the `reduce` over the client's lines, is what its
      order items add up to. */
  lemma {:induction false} OrderTotalMatchesItems(lines: seq<CartItem>)
    ensures ItemsTotal(OrderItemsOf(lines)) == Total(lines)
  {
    if lines != [] {
      OrderTotalMatchesItems(lines[1..]);
      assert lines == [lines[0]] + lines[1..];
      TotalConcat([lines[0]], lines[1..]);
      assert Total([lines[0]]) == Subtotal(lines[0]) by { assert [lines[0]][..0] == []; }
      assert OrderItemsOf(lines)[1..] == OrderItemsOf(lines[1..]);
    }
  }

  /** The order `POST` creates for `user` from `lines`, under the id the database assigns. */
  function NewOrder(id: nat, user: User, lines: seq<CartItem>): Order {
    Order(id, user.id, Total(lines), "pending", OrderItemsOf(lines))
  }

  /** The tables the handler touches. */
  class Database {
    var users: map<string, User>
    var products: map<string, Product>
    var orders: seq<Order>
    var nextOrderId: nat

    /** Users are keyed by their unique e-mail; every order id was issued before. */
    ghost predicate Valid()
      reads this
    {
      && (forall e :: e in users ==> users[e].email == e)
      && (forall o :: o in orders ==> o.id < nextOrderId)
    }

    constructor (users: map<string, User>, products: map<string, Product>)
      requires forall e :: e in users ==> users[e].email == e
      ensures Valid()
      ensures this.users == users && this.products == products && orders == []
    {
      this.users := users;
      this.products := products;
      orders := [];
      nextOrderId := 0;
    }
  }

  /** `POST /api/checkout` for the session's e-mail and the request body. */
  method Post(db: Database, email: Option<string>, body: RequestBody) returns (resp: Response)
    requires db.Valid()
    modifies db`orders, db`nextOrderId
    ensures db.Valid()
    ensures db.users == old(db.users) && db.products == old(db.products)
    ensures Validate(email, db.users, body).Failure? ==>
              resp == Validate(email, db.users, body).error && db.orders == old(db.orders)
    ensures Validate(email, db.users, body).Success? ==>
              var (user, lines) := Validate(email, db.users, body).value;
              && user.email == email.value
              && resp.status == 200
              && resp.payload.OrderCreated?
              && (forall o :: o in old(db.orders) ==> o.id != resp.payload.orderId)
              && db.orders == old(db.orders) + [NewOrder(resp.payload.orderId, user, lines)]
  {
    var checked := Validate(email, db.users, body);
    if checked.Failure? {
      return checked.error;
    }
    var (user, lines) := checked.value;
    var order := NewOrder(db.nextOrderId, user, lines);
    db.orders := db.orders + [order];
    db.nextOrderId := db.nextOrderId + 1;
    resp := Response(200, OrderCreated("Order created successfully", order.id));
  }
}
