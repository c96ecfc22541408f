/**
 * Request bodies of the order endpoints (app/orders/schemas.py).
 * `OrderItemCreate` has no constraint at all: a zero or negative
 * quantity and an empty item list are accepted.
 */
module OrderSchemas {
  import opened Wrappers
  import opened Domain

  datatype OrderItemCreate = OrderItemCreate(productId: int, quantity: int, notes: Option<string>)

  datatype OrderCreate = OrderCreate(tableId: int, items: seq<OrderItemCreate>, notes: Option<string>)

  /** Both fields optional; an absent field leaves the order untouched. */
  datatype OrderUpdate = OrderUpdate(status: Option<OrderStatus>, notes: Option<string>)

  /** The body as it arrives: the status is still a string. */
  datatype RawOrderUpdate = RawOrderUpdate(status: Option<string>, notes: Option<string>)

  function RawOfOrderUpdate(u: OrderUpdate): RawOrderUpdate {
    RawOrderUpdate(if u.status.Some? then Some(OrderStatusName(u.status.value)) else None, u.notes)
  }

  /** A present status must name one of the five order states. */
  function ValidateOrderUpdate(raw: RawOrderUpdate): (r: Result<OrderUpdate>)
    ensures r.Ok? <==> raw.status.None? || ParseOrderStatus(raw.status.value).Some?
    ensures r.Err? ==> r.error == ValidationError
    ensures r.Ok? ==> RawOfOrderUpdate(r.value) == raw
  {
    match raw.status
    case None => Ok(OrderUpdate(None, raw.notes))
    case Some(s) =>
      match ParseOrderStatus(s)
      case None => Err(ValidationError)
      case Some(st) => Ok(OrderUpdate(Some(st), raw.notes))
  }

  lemma OrderUpdateRoundTrip(u: OrderUpdate)
    ensures ValidateOrderUpdate(RawOfOrderUpdate(u)) == Ok(u)
  {
    if u.status.Some? {
      assert ParseOrderStatus(OrderStatusName(u.status.value)) == Some(u.status.value);
    }
  }
}

/**
 * Request bodies of the product endpoints (app/products/schemas.py).
 * Prices are integer cents, so "two decimal places" holds by construction.
 */
module ProductSchemas {
  import opened Wrappers

  /** A price in cents: strictly positive. */
  type Price = p: int | p > 0 witness 1

  datatype ProductCreate = ProductCreate(
    name: string,
    price: Price,
    category: string,
    description: Option<string>,
    stock: nat)

  /** The create body as it arrives; an absent stock defaults to 0. */
  datatype RawProductCreate = RawProductCreate(
    name: string,
    price: int,
    category: string,
    description: Option<string>,
    stock: Option<int>)

  function RawOfProductCreate(c: ProductCreate): RawProductCreate {
    RawProductCreate(c.name, c.price, c.category, c.description, Some(c.stock))
  }

  function ValidateProductCreate(raw: RawProductCreate): (r: Result<ProductCreate>)
    ensures r.Ok? <==> raw.price > 0 && (raw.stock.None? || raw.stock.value >= 0)
    ensures r.Err? ==> r.error == ValidationError
    ensures r.Ok? ==> RawOfProductCreate(r.value) == raw.(stock := Some(if raw.stock.Some? then raw.stock.value else 0))
  {
    if raw.price <= 0 then Err(ValidationError)
    else match raw.stock
      case None => Ok(ProductCreate(raw.name, raw.price, raw.category, raw.description, 0))
      case Some(s) =>
        if s < 0 then Err(ValidationError)
        else Ok(ProductCreate(raw.name, raw.price, raw.category, raw.description, s))
  }

  lemma ProductCreateRoundTrip(c: ProductCreate)
    ensures ValidateProductCreate(RawOfProductCreate(c)) == Ok(c)
  {
  }

  /**
   * Every field optional; a present field carries the create constraints.
   * `description` is nullable, so a present description may be null.
   */
  datatype ProductUpdate = ProductUpdate(
    name: Option<string>,
    price: Option<Price>,
    category: Option<string>,
    description: Option<Option<string>>,
    stock: Option<nat>,
    isActive: Option<bool>)

  datatype RawProductUpdate = RawProductUpdate(
    name: Option<string>,
    price: Option<int>,
    category: Option<string>,
    description: Option<Option<string>>,
    stock: Option<int>,
    isActive: Option<bool>)

  function RawOfProductUpdate(u: ProductUpdate): RawProductUpdate {
    RawProductUpdate(
      u.name,
      if u.price.Some? then Some(u.price.value as int) else None,
      u.category,
      u.description,
      if u.stock.Some? then Some(u.stock.value as int) else None,
      u.isActive)
  }

  function ValidateProductUpdate(raw: RawProductUpdate): (r: Result<ProductUpdate>)
    ensures r.Ok? <==> (raw.price.None? || raw.price.value > 0) && (raw.stock.None? || raw.stock.value >= 0)
    ensures r.Err? ==> r.error == ValidationError
    ensures r.Ok? ==> RawOfProductUpdate(r.value) == raw
  {
    if raw.price.Some? && raw.price.value <= 0 then Err(ValidationError)
    else if raw.stock.Some? && raw.stock.value < 0 then Err(ValidationError)
    else
      var price: Option<Price> := if raw.price.Some? then Some(raw.price.value) else None;
      var stock: Option<nat> := if raw.stock.Some? then Some(raw.stock.value) else None;
      Ok(ProductUpdate(raw.name, price, raw.category, raw.description, stock, raw.isActive))
  }

  lemma ProductUpdateRoundTrip(u: ProductUpdate)
    ensures ValidateProductUpdate(RawOfProductUpdate(u)) == Ok(u)
  {
  }

  datatype ProductStockUpdate = ProductStockUpdate(stock: nat)

  function ValidateStockUpdate(raw: int): (r: Result<ProductStockUpdate>)
    ensures r.Ok? <==> raw >= 0
    ensures r.Err? ==> r.error == ValidationError
    ensures r.Ok? ==> r.value.stock == raw
  {
    if raw < 0 then Err(ValidationError) else Ok(ProductStockUpdate(raw))
  }
}

/** Request bodies of the table endpoints (app/tables/schemas.py). */
module TableSchemas {
  import opened Wrappers
  import opened Domain

  /** A seat count: strictly positive. */
  type Capacity = c: int | c > 0 witness 1

  datatype TableCreate = TableCreate(capacity: Capacity)

  function ValidateTableCreate(raw: int): (r: Result<TableCreate>)
    ensures r.Ok? <==> raw > 0
    ensures r.Err? ==> r.error == ValidationError
    ensures r.Ok? ==> r.value.capacity == raw
  {
    if raw <= 0 then Err(ValidationError) else Ok(TableCreate(raw))
  }

  /** Every field optional; a present capacity must be positive. */
  datatype TableUpdate = TableUpdate(capacity: Option<Capacity>, status: Option<TableStatus>, isActive: Option<bool>)

  datatype RawTableUpdate = RawTableUpdate(capacity: Option<int>, status: Option<string>, isActive: Option<bool>)

  function RawOfTableUpdate(u: TableUpdate): RawTableUpdate {
    RawTableUpdate(
      if u.capacity.Some? then Some(u.capacity.value as int) else None,
      if u.status.Some? then Some(TableStatusName(u.status.value)) else None,
      u.isActive)
  }

  function ValidateTableUpdate(raw: RawTableUpdate): (r: Result<TableUpdate>)
    ensures r.Ok? <==>
      (raw.capacity.None? || raw.capacity.value > 0) &&
      (raw.status.None? || ParseTableStatus(raw.status.value).Some?)
    ensures r.Err? ==> r.error == ValidationError
    ensures r.Ok? ==> RawOfTableUpdate(r.value) == raw
  {
    if raw.capacity.Some? && raw.capacity.value <= 0 then Err(ValidationError)
    else
      var capacity: Option<Capacity> := if raw.capacity.Some? then Some(raw.capacity.value) else None;
      match raw.status
      case None => Ok(TableUpdate(capacity, None, raw.isActive))
      case Some(s) =>
        match ParseTableStatus(s)
        case None => Err(ValidationError)
        case Some(st) => Ok(TableUpdate(capacity, Some(st), raw.isActive))
  }

  lemma TableUpdateRoundTrip(u: TableUpdate)
    ensures ValidateTableUpdate(RawOfTableUpdate(u)) == Ok(u)
  {
    if u.status.Some? {
      assert ParseTableStatus(TableStatusName(u.status.value)) == Some(u.status.value);
    }
  }

  /** The status body is required and must name one of the three table states. */
  datatype TableStatusUpdate = TableStatusUpdate(status: TableStatus)

  function ValidateTableStatusUpdate(raw: string): (r: Result<TableStatusUpdate>)
    ensures r.Ok? <==> raw == "free" || raw == "occupied" || raw == "pending_payment"
    ensures r.Err? ==> r.error == ValidationError
    ensures r.Ok? ==> TableStatusName(r.value.status) == raw
  {
    match ParseTableStatus(raw)
    case None => Err(ValidationError)
    case Some(st) => Ok(TableStatusUpdate(st))
  }
}
