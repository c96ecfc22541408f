/**
 * The café's database and the HTTP handlers that act on it. Each table of
 * the database is a map from autoincrement id to row. Each handler is one
 * atomic step: it runs its role gate first (order creation looks up the
 * current user instead; registration and login have no gate), then its
 * checks, and changes nothing unless every check passes.
 */
module Cafe {
  import opened Wrappers
  import opened Domain
  import opened Query
  import opened Auth
  import opened OrderSchemas
  import opened ProductSchemas
  import opened TableSchemas
  import opened Catalog
  import opened Orders
  import opened Kitchen

  // The role lists the handlers pass to the gate.
  const Staff: seq<string> := ["admin", "cashier", "cook"]
  const FrontOfHouse: seq<string> := ["admin", "cashier"]
  const AdminOnly: seq<string> := ["admin"]
  const StockKeepers: seq<string> := ["admin", "cook"]
  const CookOnly: seq<string> := ["cook"]
  const StatsReaders: seq<string> := ["cook", "admin"]

  /** Everything a handler may change, for stating what it leaves alone. */
  datatype State = State(
    users: map<int, User>,
    tables: map<int, Table>,
    products: map<int, Product>,
    orders: map<int, Order>,
    nextUserId: int,
    nextTableId: int,
    nextProductId: int,
    nextOrderId: int)

  /** Every id of `m` was handed out by its autoincrement counter `next`. */
  ghost predicate IdsBelow<T>(m: map<int, T>, next: int) {
    1 <= next && forall k :: k in m ==> 1 <= k < next
  }

  /** The foreign keys of the orders and their items point at existing rows. */
  ghost predicate OrdersReferenceRows(orders: map<int, Order>, tables: map<int, Table>,
                                      users: map<int, User>, products: map<int, Product>) {
    forall k :: k in orders ==>
      && orders[k].tableId in tables
      && orders[k].userId in users
      && forall i :: 0 <= i < |orders[k].items| ==> orders[k].items[i].productId in products
  }

  /** The invariants every handler keeps. */
  ghost predicate Consistent(s: State) {
    && IdsBelow(s.users, s.nextUserId)
    && IdsBelow(s.tables, s.nextTableId)
    && IdsBelow(s.products, s.nextProductId)
    && IdsBelow(s.orders, s.nextOrderId)
    && UniqueUsernames(s.users)
    && (forall k :: k in s.tables ==> s.tables[k].capacity > 0)
    && (forall k :: k in s.products ==> s.products[k].price > 0)
    && OrdersReferenceRows(s.orders, s.tables, s.users, s.products)
  }

  /** The autoincrement counters never point at an existing row. */
  lemma NextIdsFresh(s: State)
    requires Consistent(s)
    ensures s.nextUserId !in s.users && s.nextTableId !in s.tables
    ensures s.nextProductId !in s.products && s.nextOrderId !in s.orders
  {
  }

  lemma InsertUserKeepsConsistent(s: State, u: User)
    requires Consistent(s)
    requires forall k :: k in s.users ==> s.users[k].username != u.username
    ensures Consistent(s.(users := s.users[s.nextUserId := u], nextUserId := s.nextUserId + 1))
  {
    RegisterKeepsUnique(s.users, s.nextUserId, u);
  }

  lemma ReplaceUserKeepsConsistent(s: State, id: int, u: User)
    requires Consistent(s) && id in s.users && s.users[id].username == u.username
    ensures Consistent(s.(users := s.users[id := u]))
  {
  }

  lemma InsertProductKeepsConsistent(s: State, p: Product)
    requires Consistent(s) && p.price > 0
    ensures Consistent(s.(products := s.products[s.nextProductId := p], nextProductId := s.nextProductId + 1))
  {
  }

  lemma ReplaceProductKeepsConsistent(s: State, id: int, p: Product)
    requires Consistent(s) && id in s.products && p.price > 0
    ensures Consistent(s.(products := s.products[id := p]))
  {
  }

  lemma InsertTableKeepsConsistent(s: State, t: Table)
    requires Consistent(s) && t.capacity > 0
    ensures Consistent(s.(tables := s.tables[s.nextTableId := t], nextTableId := s.nextTableId + 1))
  {
  }

  lemma ReplaceTableKeepsConsistent(s: State, id: int, t: Table)
    requires Consistent(s) && id in s.tables && t.capacity > 0
    ensures Consistent(s.(tables := s.tables[id := t]))
  {
  }

  lemma ReplaceOrderKeepsConsistent(s: State, id: int, o: Order)
    requires Consistent(s) && id in s.orders
    requires o.tableId == s.orders[id].tableId && o.userId == s.orders[id].userId && o.items == s.orders[id].items
    ensures Consistent(s.(orders := s.orders[id := o]))
  {
  }

  /**
   * The state after a successful order creation: the new order under the
   * next id, every line's quantity taken from its product's stock, the
   * table occupied.
   */
  ghost function Placed(s: State, req: OrderCreate, userId: int, now: int): State
    requires req.tableId in s.tables
    requires forall i :: 0 <= i < |req.items| ==> req.items[i].productId in s.products
  {
    s.(orders := s.orders[s.nextOrderId := NewOrder(req, userId, now, Items(s.products, req.items))],
       products := Deduct(s.products, req.items),
       tables := s.tables[req.tableId := s.tables[req.tableId].(status := Occupied)],
       nextOrderId := s.nextOrderId + 1)
  }

  /**
   * The writes of an order creation keep the invariants whatever the
   * quantities: deducting stock changes no key and no price.
   */
  lemma PlacedKeepsConsistent(s: State, req: OrderCreate, userId: int, now: int)
    requires Consistent(s)
    requires req.tableId in s.tables && userId in s.users
    requires forall i :: 0 <= i < |req.items| ==> req.items[i].productId in s.products
    ensures Consistent(Placed(s, req, userId, now))
  {
    var p := Placed(s, req, userId, now);
    var items := Items(s.products, req.items);
    assert forall i :: 0 <= i < |items| ==> items[i].productId in p.products;
  }

  /** No product's stock is below zero. */
  ghost predicate StockNonNegative(products: map<int, Product>) {
    forall k :: k in products ==> products[k].stock >= 0
  }

  /** An order that passed the check as written, naming no product twice, overdraws nothing. */
  lemma PlacedDistinctKeepsStock(s: State, req: OrderCreate, userId: int, now: int)
    requires req.tableId in s.tables
    requires CheckLines(s.products, req.items).None?
    requires forall a, b :: 0 <= a < b < |req.items| ==> req.items[a].productId != req.items[b].productId
    requires StockNonNegative(s.products)
    ensures StockNonNegative(Placed(s, req, userId, now).products)
  {
    NoOverdraftWhenDistinct(s.products, req.items);
  }

  /** An order that passed the corrected check overdraws nothing. */
  lemma PlacedCorrectedKeepsStock(s: State, req: OrderCreate, userId: int, now: int)
    requires req.tableId in s.tables
    requires CheckLinesCumulative(s.products, req.items).None?
    requires StockNonNegative(s.products)
    ensures forall i :: 0 <= i < |req.items| ==> req.items[i].productId in s.products
    ensures StockNonNegative(Placed(s, req, userId, now).products)
  {
    CorrectedCheckKeepsStock(s.products, req.items);
  }

  /**
   * The first loop of create_order: each line's product is looked up and
   * its stock, as it was before the order, compared with the line's
   * quantity, stopping at the first line that fails.
   */
  method CheckLineLoop(products: map<int, Product>, lines: seq<OrderItemCreate>) returns (e: Option<Error>)
    ensures e == CheckLines(products, lines)
  {
    var i := 0;
    while i < |lines|
      invariant 0 <= i <= |lines|
      invariant forall j :: 0 <= j < i ==> LineAvailable(products, lines[j])
    {
      var line := lines[i];
      if line.productId !in products {
        FirstFailingLine(products, lines, i);
        return Some(NotFound);
      }
      if products[line.productId].stock < line.quantity {
        FirstFailingLine(products, lines, i);
        return Some(BadRequest);
      }
      i := i + 1;
    }
    e := None;
  }

  /**
   * The first loop, corrected: each line is compared with the stock left
   * after the earlier lines, and a quantity must be positive.
   */
  method CheckLineLoopCorrected(products: map<int, Product>, lines: seq<OrderItemCreate>) returns (e: Option<Error>)
    ensures e == CheckLinesCumulative(products, lines)
  {
    var left := products;
    var i := 0;
    while i < |lines|
      invariant 0 <= i <= |lines|
      invariant CheckLinesCumulative(products, lines[..i]).None?
      invariant forall j :: 0 <= j < i ==> lines[j].productId in products
      invariant left == Deduct(products, lines[..i])
    {
      var line := lines[i];
      CumulativeStep(products, lines, i);
      if line.productId !in left {
        CumulativeFailurePersists(products, lines, i + 1);
        return Some(NotFound);
      }
      DeductStock(products, lines[..i], line.productId);
      if line.quantity <= 0 || left[line.productId].stock < line.quantity {
        CumulativeFailurePersists(products, lines, i + 1);
        return Some(BadRequest);
      }
      DeductStep(products, lines, i);
      left := TakeLine(left, line);
      i := i + 1;
    }
    assert lines[..i] == lines;
    e := None;
  }

  /** The checks of create_order, in their order: the table, then the lines. */
  method CheckOrderLoop(tables: map<int, Table>, products: map<int, Product>, req: OrderCreate)
    returns (e: Option<Error>)
    ensures e == CheckOrder(tables, products, req)
  {
    if req.tableId !in tables {
      return Some(NotFound);
    }
    if tables[req.tableId].status != Free {
      return Some(BadRequest);
    }
    e := CheckLineLoop(products, req.items);
  }

  /** The same table checks, then the corrected line loop. */
  method CheckOrderLoopCorrected(tables: map<int, Table>, products: map<int, Product>, req: OrderCreate)
    returns (e: Option<Error>)
    ensures e == CheckOrderCorrected(tables, products, req)
  {
    if req.tableId !in tables {
      return Some(NotFound);
    }
    if tables[req.tableId].status != Free {
      return Some(BadRequest);
    }
    e := CheckLineLoopCorrected(products, req.items);
  }

  /** The `setattr` loop of update_product over the fields present in the request. */
  method SetProductAttrs(p: Product, fields: seq<ProductField>) returns (row: Product)
    ensures row == Fold(p, fields, SetProductAttr)
  {
    row := p;
    var i := 0;
    while i < |fields|
      invariant 0 <= i <= |fields|
      invariant Fold(row, fields[i..], SetProductAttr) == Fold(p, fields, SetProductAttr)
    {
      assert fields[i..][1..] == fields[i + 1..];
      row := SetProductAttr(row, fields[i]);
      i := i + 1;
    }
    assert fields[i..] == [];
  }

  /** The `setattr` loop of update_table over the fields present in the request. */
  method SetTableAttrs(t: Table, fields: seq<TableField>) returns (row: Table)
    ensures row == Fold(t, fields, SetTableAttr)
  {
    row := t;
    var i := 0;
    while i < |fields|
      invariant 0 <= i <= |fields|
      invariant Fold(row, fields[i..], SetTableAttr) == Fold(t, fields, SetTableAttr)
    {
      assert fields[i..][1..] == fields[i + 1..];
      row := SetTableAttr(row, fields[i]);
      i := i + 1;
    }
    assert fields[i..] == [];
  }

  /**
   * Over the stored orders, the kitchen queue is sorted by creation and
   * holds exactly the rows whose status is pending or preparing.
   */
  lemma QueueOfOrders(orders: map<int, Order>, next: int)
    requires IdsBelow(orders, next)
    ensures SortedByCreation(Queue(Rows(orders, next)))
    ensures forall x :: x in Queue(Rows(orders, next)) <==>
      x.0 in orders && orders[x.0] == x.1 && InKitchen(x.1.status)
    ensures multiset(Queue(Rows(orders, next))) == multiset(KitchenOrders(Rows(orders, next)))
    ensures IdsDistinct(Queue(Rows(orders, next)))
  {
    var rows := Rows(orders, next);
    QueueMembers(rows);
    PermutationKeepsDistinct(Queue(rows), KitchenOrders(rows));
    forall x
      ensures x in Queue(rows) <==> x.0 in orders && orders[x.0] == x.1 && InKitchen(x.1.status)
    {
      if x in rows {
        var i :| 0 <= i < |rows| && rows[i] == x;
      }
      if x.0 in orders && orders[x.0] == x.1 {
        assert (x.0, orders[x.0]) in rows;
      }
    }
  }

  class Store {
    /** The hashing and token libraries. */
    const creds: Credentials

    var users: map<int, User>
    var tables: map<int, Table>
    var products: map<int, Product>
    var orders: map<int, Order>
    var nextUserId: int
    var nextTableId: int
    var nextProductId: int
    var nextOrderId: int

    function Snapshot(): State
      reads this
    {
      State(users, tables, products, orders, nextUserId, nextTableId, nextProductId, nextOrderId)
    }

    ghost predicate Valid()
      reads this
    {
      Consistent(Snapshot())
    }

    /** An empty database. */
    constructor(creds: Credentials)
      ensures Valid()
      ensures this.creds == creds
      ensures users == map[] && tables == map[] && products == map[] && orders == map[]
      ensures nextUserId == 1 && nextTableId == 1 && nextProductId == 1 && nextOrderId == 1
    {
      this.creds := creds;
      users, tables, products, orders := map[], map[], map[], map[];
      nextUserId, nextTableId, nextProductId, nextOrderId := 1, 1, 1, 1;
    }

    /** check_permissions(roles) applied to the request's bearer token. */
    function Gate(token: string, roles: seq<string>): Result<Claims> {
      Authorize(token, roles, creds.decode)
    }

    // ---------------------------------------------------------- users

    /** get_current_user: the id of the user the token's subject names. */
    function CurrentUserId(token: string): (r: Result<int>)
      reads this
      requires Valid()
      ensures r.Err? ==> r.error == Unauthorized
      ensures r.Ok? <==>
        creds.decode(token).Some? && creds.decode(token).value.sub.Some? &&
        exists k :: k in users && users[k].username == creds.decode(token).value.sub.value
      ensures r.Ok? ==> r.value in users && users[r.value].username == creds.decode(token).value.sub.value
    {
      var rows := Rows(users, nextUserId);
      assert forall k :: k in users ==> (k, users[k]) in rows;
      CurrentUser(token, creds.decode, rows)
    }

    /** register_user: a taken username is refused with a server error. */
    method Register(req: UserCreate) returns (r: Result<int>)
      requires Valid()
      modifies this
      ensures Valid()
      ensures r.Ok? <==> forall k :: k in old(users) ==> old(users)[k].username != req.username
      ensures r.Err? ==> r.error == InternalError && Snapshot() == old(Snapshot())
      ensures r.Ok? ==> r.value == old(nextUserId) && r.value !in old(users)
      ensures r.Ok? ==> Snapshot() == old(Snapshot()).(
        users := old(users)[r.value := User(req.username, creds.hash(req.password), req.role, true, None)],
        nextUserId := old(nextUserId) + 1)
    {
      var rows := Rows(users, nextUserId);
      assert forall k :: k in users ==> (k, users[k]) in rows;
      if FindUser(rows, req.username).Some? {
        return Err(InternalError);
      }
      var id := nextUserId;
      var u := User(req.username, creds.hash(req.password), req.role, true, None);
      InsertUserKeepsConsistent(Snapshot(), u);
      users := users[id := u];
      nextUserId := nextUserId + 1;
      r := Ok(id);
    }

    /** The user `login` accepts, if any. */
    function LoginUser(username: string, password: string): (r: Result<int>)
      reads this
      requires Valid()
      ensures r.Err? ==> r.error == Unauthorized
      ensures r.Ok? ==> r.value in users && users[r.value].username == username
      ensures r.Ok? ==> creds.verify(password, users[r.value].passwordHash)
      ensures (exists k :: k in users && users[k].username == username && creds.verify(password, users[k].passwordHash))
        ==> r.Ok?
    {
      var rows := Rows(users, nextUserId);
      assert forall k :: k in users ==> (k, users[k]) in rows;
      CheckLogin(rows, users, username, password, creds.verify)
    }

    /** login: stamps `lastLogin` and issues a token for the user's name and role. */
    method Login(username: string, password: string, now: int) returns (r: Result<string>)
      requires Valid()
      modifies this
      ensures Valid()
      ensures old(LoginUser(username, password)).Err? ==> r == Err(Unauthorized) && Snapshot() == old(Snapshot())
      ensures old(LoginUser(username, password)).Ok? ==>
        var id := old(LoginUser(username, password)).value;
        && id in old(users)
        && Snapshot() == old(Snapshot()).(users := old(users)[id := old(users)[id].(lastLogin := Some(now))])
        && r == Ok(creds.encode(LoginClaims(old(users)[id], now)))
    {
      var id :- LoginUser(username, password);
      var u := users[id];
      ReplaceUserKeepsConsistent(Snapshot(), id, u.(lastLogin := Some(now)));
      users := users[id := u.(lastLogin := Some(now))];
      r := Ok(creds.encode(LoginClaims(u, now)));
    }

    // ------------------------------------------------------- products

    /** create_product (admin): inserts the validated fields, active. */
    method CreateProduct(token: string, req: ProductCreate) returns (r: Result<int>)
      requires Valid()
      modifies this
      ensures Valid()
      ensures r.Ok? <==> Gate(token, AdminOnly).Ok?
      ensures r.Err? ==> r.error == Gate(token, AdminOnly).error && Snapshot() == old(Snapshot())
      ensures r.Ok? ==> r.value == old(nextProductId) && r.value !in old(products)
      ensures r.Ok? ==> Snapshot() == old(Snapshot()).(
        products := old(products)[r.value := NewProduct(req)],
        nextProductId := old(nextProductId) + 1)
    {
      var claims :- Gate(token, AdminOnly);
      var id := nextProductId;
      InsertProductKeepsConsistent(Snapshot(), NewProduct(req));
      products := products[id := NewProduct(req)];
      nextProductId := nextProductId + 1;
      r := Ok(id);
    }

    /** get_products (staff). */
    function GetProducts(token: string, skip: nat, limit: nat, category: Option<string>, activeOnly: bool)
      : (r: Result<seq<(int, Product)>>)
      reads this
      ensures r.Ok? <==> Gate(token, Staff).Ok?
      ensures r.Err? ==> r.error == Gate(token, Staff).error
      ensures r.Ok? ==>
        r.value == Page(Filter(Rows(products, nextProductId), MatchesP(category, activeOnly)), skip, limit)
    {
      if Gate(token, Staff).Err? then Err(Gate(token, Staff).error) else
        Ok(ListProducts(Rows(products, nextProductId), skip, limit, category, activeOnly))
    }

    /** get_categories (staff). */
    function GetCategories(token: string): (r: Result<seq<string>>)
      reads this
      requires Valid()
      ensures r.Ok? <==> Gate(token, Staff).Ok?
      ensures r.Err? ==> r.error == Gate(token, Staff).error
      ensures r.Ok? ==> forall i, j :: 0 <= i < j < |r.value| ==> r.value[i] != r.value[j]
      ensures r.Ok? ==> forall c :: c in r.value <==> exists k :: k in products && products[k].category == c
    {
      if Gate(token, Staff).Err? then Err(Gate(token, Staff).error) else
        var rows := Rows(products, nextProductId);
        assert forall k :: k in products ==> (k, products[k]) in rows;
        Ok(Categories(rows))
    }

    /** get_product (staff). */
    function GetProduct(token: string, id: int): (r: Result<Product>)
      reads this
      ensures r.Ok? <==> Gate(token, Staff).Ok? && id in products
      ensures Gate(token, Staff).Err? ==> r == Err(Gate(token, Staff).error)
      ensures Gate(token, Staff).Ok? && id !in products ==> r == Err(NotFound)
      ensures r.Ok? ==> r.value == products[id]
    {
      if Gate(token, Staff).Err? then Err(Gate(token, Staff).error) else
        if id !in products then Err(NotFound) else Ok(products[id])
    }

    /** update_product (admin): the setattr loop over the fields present in the body. */
    method UpdateProduct(token: string, id: int, u: ProductUpdate) returns (r: Result<Product>)
      requires Valid()
      modifies this
      ensures Valid()
      ensures r.Ok? <==> Gate(token, AdminOnly).Ok? && id in old(products)
      ensures Gate(token, AdminOnly).Err? ==> r == Err(Gate(token, AdminOnly).error)
      ensures Gate(token, AdminOnly).Ok? && id !in old(products) ==> r == Err(NotFound)
      ensures r.Err? ==> Snapshot() == old(Snapshot())
      ensures r.Ok? ==> MergedProduct(old(products)[id], u, r.value)
      ensures r.Ok? ==> Snapshot() == old(Snapshot()).(products := old(products)[id := r.value])
    {
      var claims :- Gate(token, AdminOnly);
      if id !in products {
        return Err(NotFound);
      }
      var row := SetProductAttrs(products[id], ProductFields(u));
      ProductFieldsMerge(products[id], u);
      ReplaceProductKeepsConsistent(Snapshot(), id, row);
      products := products[id := row];
      r := Ok(row);
    }

    /** update_product_stock (admin, cook): sets the stock, nothing else. */
    method UpdateProductStock(token: string, id: int, s: ProductStockUpdate) returns (r: Result<Product>)
      requires Valid()
      modifies this
      ensures Valid()
      ensures r.Ok? <==> Gate(token, StockKeepers).Ok? && id in old(products)
      ensures Gate(token, StockKeepers).Err? ==> r == Err(Gate(token, StockKeepers).error)
      ensures Gate(token, StockKeepers).Ok? && id !in old(products) ==> r == Err(NotFound)
      ensures r.Err? ==> Snapshot() == old(Snapshot())
      ensures r.Ok? ==> r.value == old(products)[id].(stock := s.stock)
      ensures r.Ok? ==> Snapshot() == old(Snapshot()).(products := old(products)[id := r.value])
    {
      var claims :- Gate(token, StockKeepers);
      if id !in products {
        return Err(NotFound);
      }
      var row := products[id].(stock := s.stock);
      ReplaceProductKeepsConsistent(Snapshot(), id, row);
      products := products[id := row];
      r := Ok(row);
    }

    /** delete_product (admin): a soft delete; the row stays. */
    method DeleteProduct(token: string, id: int) returns (r: Result<()>)
      requires Valid()
      modifies this
      ensures Valid()
      ensures r.Ok? <==> Gate(token, AdminOnly).Ok? && id in old(products)
      ensures Gate(token, AdminOnly).Err? ==> r == Err(Gate(token, AdminOnly).error)
      ensures Gate(token, AdminOnly).Ok? && id !in old(products) ==> r == Err(NotFound)
      ensures r.Err? ==> Snapshot() == old(Snapshot())
      ensures r.Ok? ==> Snapshot() == old(Snapshot()).(products := old(products)[id := old(products)[id].(isActive := false)])
    {
      var claims :- Gate(token, AdminOnly);
      if id !in products {
        return Err(NotFound);
      }
      ReplaceProductKeepsConsistent(Snapshot(), id, products[id].(isActive := false));
      products := products[id := products[id].(isActive := false)];
      r := Ok(());
    }

    // --------------------------------------------------------- tables

    /** create_table (admin, cashier): a free, active table of the given capacity. */
    method CreateTable(token: string, req: TableCreate) returns (r: Result<int>)
      requires Valid()
      modifies this
      ensures Valid()
      ensures r.Ok? <==> Gate(token, FrontOfHouse).Ok?
      ensures r.Err? ==> r.error == Gate(token, FrontOfHouse).error && Snapshot() == old(Snapshot())
      ensures r.Ok? ==> r.value == old(nextTableId) && r.value !in old(tables)
      ensures r.Ok? ==> Snapshot() == old(Snapshot()).(
        tables := old(tables)[r.value := NewTable(req)],
        nextTableId := old(nextTableId) + 1)
    {
      var claims :- Gate(token, FrontOfHouse);
      var id := nextTableId;
      InsertTableKeepsConsistent(Snapshot(), NewTable(req));
      tables := tables[id := NewTable(req)];
      nextTableId := nextTableId + 1;
      r := Ok(id);
    }

    /** get_tables (staff): every table, inactive ones too, one page of them. */
    function GetTables(token: string, skip: nat, limit: nat): (r: Result<seq<(int, Table)>>)
      reads this
      ensures r.Ok? <==> Gate(token, Staff).Ok?
      ensures r.Err? ==> r.error == Gate(token, Staff).error
      ensures r.Ok? ==> var rows := Rows(tables, nextTableId);
        |r.value| == (if skip >= |rows| then 0 else Min(limit, |rows| - skip)) &&
        forall i :: 0 <= i < |r.value| ==> r.value[i] == rows[skip + i]
    {
      if Gate(token, Staff).Err? then Err(Gate(token, Staff).error) else
        Ok(Page(Rows(tables, nextTableId), skip, limit))
    }

    /** get_table (staff). */
    function GetTable(token: string, id: int): (r: Result<Table>)
      reads this
      ensures r.Ok? <==> Gate(token, Staff).Ok? && id in tables
      ensures Gate(token, Staff).Err? ==> r == Err(Gate(token, Staff).error)
      ensures Gate(token, Staff).Ok? && id !in tables ==> r == Err(NotFound)
      ensures r.Ok? ==> r.value == tables[id]
    {
      if Gate(token, Staff).Err? then Err(Gate(token, Staff).error) else
        if id !in tables then Err(NotFound) else Ok(tables[id])
    }

    /** update_table (admin, cashier): the setattr loop over the fields present in the body. */
    method UpdateTable(token: string, id: int, u: TableUpdate) returns (r: Result<Table>)
      requires Valid()
      modifies this
      ensures Valid()
      ensures r.Ok? <==> Gate(token, FrontOfHouse).Ok? && id in old(tables)
      ensures Gate(token, FrontOfHouse).Err? ==> r == Err(Gate(token, FrontOfHouse).error)
      ensures Gate(token, FrontOfHouse).Ok? && id !in old(tables) ==> r == Err(NotFound)
      ensures r.Err? ==> Snapshot() == old(Snapshot())
      ensures r.Ok? ==> MergedTable(old(tables)[id], u, r.value)
      ensures r.Ok? ==> Snapshot() == old(Snapshot()).(tables := old(tables)[id := r.value])
    {
      var claims :- Gate(token, FrontOfHouse);
      if id !in tables {
        return Err(NotFound);
      }
      var row := SetTableAttrs(tables[id], TableFields(u));
      TableFieldsMerge(tables[id], u);
      ReplaceTableKeepsConsistent(Snapshot(), id, row);
      tables := tables[id := row];
      r := Ok(row);
    }

    /** update_table_status (admin, cashier): any status from any status. */
    method UpdateTableStatus(token: string, id: int, s: TableStatusUpdate) returns (r: Result<Table>)
      requires Valid()
      modifies this
      ensures Valid()
      ensures r.Ok? <==> Gate(token, FrontOfHouse).Ok? && id in old(tables)
      ensures Gate(token, FrontOfHouse).Err? ==> r == Err(Gate(token, FrontOfHouse).error)
      ensures Gate(token, FrontOfHouse).Ok? && id !in old(tables) ==> r == Err(NotFound)
      ensures r.Err? ==> Snapshot() == old(Snapshot())
      ensures r.Ok? ==> r.value == old(tables)[id].(status := s.status)
      ensures r.Ok? ==> Snapshot() == old(Snapshot()).(tables := old(tables)[id := r.value])
    {
      var claims :- Gate(token, FrontOfHouse);
      if id !in tables {
        return Err(NotFound);
      }
      var row := tables[id].(status := s.status);
      ReplaceTableKeepsConsistent(Snapshot(), id, row);
      tables := tables[id := row];
      r := Ok(row);
    }

    /** delete_table (admin): a soft delete; the row and its status stay. */
    method DeleteTable(token: string, id: int) returns (r: Result<()>)
      requires Valid()
      modifies this
      ensures Valid()
      ensures r.Ok? <==> Gate(token, AdminOnly).Ok? && id in old(tables)
      ensures Gate(token, AdminOnly).Err? ==> r == Err(Gate(token, AdminOnly).error)
      ensures Gate(token, AdminOnly).Ok? && id !in old(tables) ==> r == Err(NotFound)
      ensures r.Err? ==> Snapshot() == old(Snapshot())
      ensures r.Ok? ==> Snapshot() == old(Snapshot()).(tables := old(tables)[id := old(tables)[id].(isActive := false)])
    {
      var claims :- Gate(token, AdminOnly);
      if id !in tables {
        return Err(NotFound);
      }
      ReplaceTableKeepsConsistent(Snapshot(), id, tables[id].(isActive := false));
      tables := tables[id := tables[id].(isActive := false)];
      r := Ok(());
    }

    // --------------------------------------------------------- orders

    /**
     * The second loop of create_order: one item per line, priced from the
     * product, and `stock -= quantity` on the product in place.
     */
    method TakeStock(lines: seq<OrderItemCreate>) returns (items: seq<OrderItem>)
      requires forall i :: 0 <= i < |lines| ==> lines[i].productId in products
      modifies this
      ensures items == Items(old(products), lines)
      ensures Snapshot() == old(Snapshot()).(products := Deduct(old(products), lines))
    {
      items := [];
      var start := products;
      var stock := start;
      var j := 0;
      while j < |lines|
        invariant 0 <= j <= |lines|
        invariant stock == Deduct(start, lines[..j])
        invariant items == Items(start, lines[..j])
        modifies {}
      {
        var line := lines[j];
        DeductStep(start, lines, j);
        items := items + [OrderItem(line.productId, line.quantity, start[line.productId].price, line.notes)];
        stock := TakeLine(stock, line);
        j := j + 1;
      }
      assert lines[..j] == lines;
      products := stock;
    }

    /**
     * The writes of create_order once its checks have passed: the order
     * under the next id, its items, the stock deductions and the occupied
     * table. `PlacedKeepsConsistent` shows that they keep `Valid()`.
     */
    method Commit(userId: int, req: OrderCreate, now: int) returns (id: int)
      requires req.tableId in tables
      requires forall i :: 0 <= i < |req.items| ==> req.items[i].productId in products
      modifies this
      ensures id == old(nextOrderId)
      ensures Snapshot() == Placed(old(Snapshot()), req, userId, now)
    {
      ghost var s0 := Snapshot();
      var items := TakeStock(req.items);
      id := nextOrderId;
      orders := orders[id := NewOrder(req, userId, now, items)];
      nextOrderId := nextOrderId + 1;
      tables := tables[req.tableId := tables[req.tableId].(status := Occupied)];
      assert Snapshot() == Placed(s0, req, userId, now);
    }

    /**
     * create_order once the caller is known: checks the table, then every
     * line against the stock before the order, and only then inserts the
     * order, deducts the stock line by line and occupies the table. An
     * order naming no product twice leaves no stock below zero.
     */
    method PlaceOrder(userId: int, req: OrderCreate, now: int) returns (r: Result<int>)
      requires Valid() && userId in users
      modifies this
      ensures Valid()
      ensures r.Err? <==> CheckOrder(old(tables), old(products), req).Some?
      ensures r.Err? ==> r.error == CheckOrder(old(tables), old(products), req).value
      ensures r.Err? ==> Snapshot() == old(Snapshot())
      ensures r.Ok? ==> r.value == old(nextOrderId) && r.value !in old(orders)
      ensures r.Ok? ==> forall i :: 0 <= i < |req.items| ==> req.items[i].productId in old(products)
      ensures r.Ok? ==> Snapshot() == Placed(old(Snapshot()), req, userId, now)
      ensures r.Ok? && old(StockNonNegative(products)) &&
        (forall a, b :: 0 <= a < b < |req.items| ==> req.items[a].productId != req.items[b].productId)
        ==> StockNonNegative(products)
    {
      var failure := CheckOrderLoop(tables, products, req);
      if failure.Some? {
        return Err(failure.value);
      }
      ghost var s0 := Snapshot();
      if StockNonNegative(products) &&
        (forall a, b :: 0 <= a < b < |req.items| ==> req.items[a].productId != req.items[b].productId) {
        PlacedDistinctKeepsStock(s0, req, userId, now);
      }
      NextIdsFresh(s0);
      var id := Commit(userId, req, now);
      PlacedKeepsConsistent(s0, req, userId, now);
      r := Ok(id);
    }

    /**
     * create_order with the corrected line check: the same writes, and no
     * stock ever goes below zero.
     */
    method PlaceOrderCorrected(userId: int, req: OrderCreate, now: int) returns (r: Result<int>)
      requires Valid() && userId in users
      modifies this
      ensures Valid()
      ensures r.Err? <==> CheckOrderCorrected(old(tables), old(products), req).Some?
      ensures r.Err? ==> r.error == CheckOrderCorrected(old(tables), old(products), req).value
      ensures r.Err? ==> Snapshot() == old(Snapshot())
      ensures r.Ok? ==> r.value == old(nextOrderId) && r.value !in old(orders)
      ensures r.Ok? ==> forall i :: 0 <= i < |req.items| ==> req.items[i].productId in old(products)
      ensures r.Ok? ==> Snapshot() == Placed(old(Snapshot()), req, userId, now)
      ensures old(StockNonNegative(products)) ==> StockNonNegative(products)
    {
      var failure := CheckOrderLoopCorrected(tables, products, req);
      if failure.Some? {
        return Err(failure.value);
      }
      ghost var s0 := Snapshot();
      forall i | 0 <= i < |req.items|
        ensures req.items[i].productId in products
      {
        assert LineFits(products, req.items, i);
      }
      if StockNonNegative(products) {
        PlacedCorrectedKeepsStock(s0, req, userId, now);
      }
      NextIdsFresh(s0);
      var id := Commit(userId, req, now);
      PlacedKeepsConsistent(s0, req, userId, now);
      r := Ok(id);
    }

    /** create_order (any signed-in user): the caller, then the order. */
    method CreateOrder(token: string, req: OrderCreate, now: int) returns (r: Result<int>)
      requires Valid()
      modifies this
      ensures Valid()
      ensures old(CurrentUserId(token)).Err? ==> r == Err(Unauthorized)
      ensures old(CurrentUserId(token)).Ok? && CheckOrder(old(tables), old(products), req).Some? ==>
        r == Err(CheckOrder(old(tables), old(products), req).value)
      ensures r.Ok? <==> old(CurrentUserId(token)).Ok? && CheckOrder(old(tables), old(products), req).None?
      ensures r.Err? ==> Snapshot() == old(Snapshot())
      ensures r.Ok? ==> r.value == old(nextOrderId) && r.value !in old(orders)
      ensures r.Ok? ==> forall i :: 0 <= i < |req.items| ==> req.items[i].productId in old(products)
      ensures r.Ok? ==> Snapshot() == Placed(old(Snapshot()), req, old(CurrentUserId(token)).value, now)
    {
      var userId :- CurrentUserId(token);
      r := PlaceOrder(userId, req, now);
    }

    /** get_orders (staff). */
    function GetOrders(token: string, status: Option<OrderStatus>, skip: nat, limit: nat)
      : (r: Result<seq<(int, Order)>>)
      reads this
      ensures r.Ok? <==> Gate(token, Staff).Ok?
      ensures r.Err? ==> r.error == Gate(token, Staff).error
      ensures r.Ok? ==> r.value == Page(Filter(Rows(orders, nextOrderId), StatusP(status)), skip, limit)
    {
      if Gate(token, Staff).Err? then Err(Gate(token, Staff).error) else
        Ok(ListOrders(Rows(orders, nextOrderId), status, skip, limit))
    }

    /** get_order (staff). */
    function GetOrder(token: string, id: int): (r: Result<Order>)
      reads this
      ensures r.Ok? <==> Gate(token, Staff).Ok? && id in orders
      ensures Gate(token, Staff).Err? ==> r == Err(Gate(token, Staff).error)
      ensures Gate(token, Staff).Ok? && id !in orders ==> r == Err(NotFound)
      ensures r.Ok? ==> r.value == orders[id]
    {
      if Gate(token, Staff).Err? then Err(Gate(token, Staff).error) else
        if id !in orders then Err(NotFound) else Ok(orders[id])
    }

    /** update_order_status (staff): the unguarded patch of status and notes. */
    method UpdateOrderStatus(token: string, id: int, u: OrderUpdate) returns (r: Result<Order>)
      requires Valid()
      modifies this
      ensures Valid()
      ensures r.Ok? <==> Gate(token, Staff).Ok? && id in old(orders)
      ensures Gate(token, Staff).Err? ==> r == Err(Gate(token, Staff).error)
      ensures Gate(token, Staff).Ok? && id !in old(orders) ==> r == Err(NotFound)
      ensures r.Err? ==> Snapshot() == old(Snapshot())
      ensures r.Ok? ==> r.value == Patch(old(orders)[id], u)
      ensures r.Ok? ==> Snapshot() == old(Snapshot()).(orders := old(orders)[id := r.value])
    {
      var claims :- Gate(token, Staff);
      if id !in orders {
        return Err(NotFound);
      }
      var o := Patch(orders[id], u);
      ReplaceOrderKeepsConsistent(Snapshot(), id, o);
      orders := orders[id := o];
      r := Ok(o);
    }

    /** get_kitchen_orders (cook): every pending or in-preparation order. */
    function GetKitchenOrders(token: string): (r: Result<seq<(int, Order)>>)
      reads this
      requires Valid()
      ensures r.Ok? <==> Gate(token, CookOnly).Ok?
      ensures r.Err? ==> r.error == Gate(token, CookOnly).error
      ensures r.Ok? ==> forall i :: 0 <= i < |r.value| ==>
        r.value[i].0 in orders && orders[r.value[i].0] == r.value[i].1 && InKitchen(r.value[i].1.status)
      ensures r.Ok? ==> forall k :: k in orders && InKitchen(orders[k].status) ==> (k, orders[k]) in r.value
      ensures r.Ok? ==> IdsIncreasing(r.value)
    {
      if Gate(token, CookOnly).Err? then Err(Gate(token, CookOnly).error) else
        var rows := Rows(orders, nextOrderId);
        assert forall k :: k in orders ==> (k, orders[k]) in rows;
        Ok(KitchenOrders(rows))
    }

    // -------------------------------------------------------- kitchen

    /** get_kitchen_queue (cook): the kitchen's orders, oldest first. */
    function GetKitchenQueue(token: string): (r: Result<seq<(int, Order)>>)
      reads this
      requires Valid()
      ensures r.Ok? <==> Gate(token, CookOnly).Ok?
      ensures r.Err? ==> r.error == Gate(token, CookOnly).error
      ensures r.Ok? ==> SortedByCreation(r.value)
      ensures r.Ok? ==> forall x :: x in r.value <==>
        x.0 in orders && orders[x.0] == x.1 && InKitchen(x.1.status)
      ensures r.Ok? ==> multiset(r.value) == multiset(KitchenOrders(Rows(orders, nextOrderId)))
      ensures r.Ok? ==> IdsDistinct(r.value)
    {
      if Gate(token, CookOnly).Err? then Err(Gate(token, CookOnly).error) else
        QueueOfOrders(orders, nextOrderId);
        Ok(Queue(Rows(orders, nextOrderId)))
    }

    /** get_next_order (cook): the oldest pending order, or NotFound. */
    function GetNextOrder(token: string): (r: Result<(int, Order)>)
      reads this
      requires Valid()
      ensures Gate(token, CookOnly).Err? ==> r == Err(Gate(token, CookOnly).error)
      ensures Gate(token, CookOnly).Ok? ==>
        (r.Ok? <==> exists k :: k in orders && orders[k].status == Pending)
      ensures Gate(token, CookOnly).Ok? && r.Err? ==> r.error == NotFound
      ensures r.Ok? ==> r.value.0 in orders && orders[r.value.0] == r.value.1 && r.value.1.status == Pending
      ensures r.Ok? ==> forall k :: k in orders && orders[k].status == Pending ==>
        r.value.1.createdAt <= orders[k].createdAt
    {
      if Gate(token, CookOnly).Err? then Err(Gate(token, CookOnly).error) else
        var rows := Rows(orders, nextOrderId);
        assert forall k :: k in orders ==> (k, orders[k]) in rows;
        NextOrder(rows)
    }

    /** start_order_preparation (cook): pending to in preparation, or BadRequest. */
    method StartOrder(token: string, id: int) returns (r: Result<Order>)
      requires Valid()
      modifies this
      ensures Valid()
      ensures Gate(token, CookOnly).Err? ==> r == Err(Gate(token, CookOnly).error)
      ensures Gate(token, CookOnly).Ok? && id !in old(orders) ==> r == Err(NotFound)
      ensures Gate(token, CookOnly).Ok? && id in old(orders) && old(orders)[id].status != Pending ==>
        r == Err(BadRequest)
      ensures r.Ok? <==> Gate(token, CookOnly).Ok? && id in old(orders) && old(orders)[id].status == Pending
      ensures r.Err? ==> Snapshot() == old(Snapshot())
      ensures r.Ok? ==> r.value == old(orders)[id].(status := InPreparation)
      ensures r.Ok? ==> Snapshot() == old(Snapshot()).(orders := old(orders)[id := r.value])
    {
      var claims :- Gate(token, CookOnly);
      if id !in orders {
        return Err(NotFound);
      }
      var o :- Start(orders[id]);
      ReplaceOrderKeepsConsistent(Snapshot(), id, o);
      orders := orders[id := o];
      r := Ok(o);
    }

    /** complete_order (cook): in preparation to ready, or BadRequest. */
    method CompleteOrder(token: string, id: int) returns (r: Result<Order>)
      requires Valid()
      modifies this
      ensures Valid()
      ensures Gate(token, CookOnly).Err? ==> r == Err(Gate(token, CookOnly).error)
      ensures Gate(token, CookOnly).Ok? && id !in old(orders) ==> r == Err(NotFound)
      ensures Gate(token, CookOnly).Ok? && id in old(orders) && old(orders)[id].status != InPreparation ==>
        r == Err(BadRequest)
      ensures r.Ok? <==> Gate(token, CookOnly).Ok? && id in old(orders) && old(orders)[id].status == InPreparation
      ensures r.Err? ==> Snapshot() == old(Snapshot())
      ensures r.Ok? ==> r.value == old(orders)[id].(status := Ready)
      ensures r.Ok? ==> Snapshot() == old(Snapshot()).(orders := old(orders)[id := r.value])
    {
      var claims :- Gate(token, CookOnly);
      if id !in orders {
        return Err(NotFound);
      }
      var o :- Complete(orders[id]);
      ReplaceOrderKeepsConsistent(Snapshot(), id, o);
      orders := orders[id := o];
      r := Ok(o);
    }

    /** get_kitchen_stats (cook, admin). */
    function GetKitchenStats(token: string, now: int): (r: Result<KitchenStats>)
      reads this
      requires Valid()
      ensures Gate(token, StatsReaders).Err? ==> r == Err(Gate(token, StatsReaders).error)
      ensures Gate(token, StatsReaders).Ok? ==>
        (r.Err? <==> exists k :: k in orders && orders[k].createdAt >= TodayStart(now) && orders[k].status == Ready)
      ensures Gate(token, StatsReaders).Ok? && r.Err? ==> r.error == InternalError
      ensures r.Ok? ==> r.value.completedOrders == 0 && r.value.avgPreparationMinutes == 0
      ensures r.Ok? ==> r.value.totalOrders == |Filter(Rows(orders, nextOrderId), TodayP(now))|
      ensures r.Ok? ==> r.value.pendingOrders == |Filter(Rows(orders, nextOrderId), StatusTodayP(now, Pending))|
      ensures r.Ok? ==> r.value.inPreparation == |Filter(Rows(orders, nextOrderId), StatusTodayP(now, InPreparation))|
      ensures r.Ok? ==> r.value.pendingOrders + r.value.inPreparation + r.value.completedOrders <= r.value.totalOrders
    {
      if Gate(token, StatsReaders).Err? then Err(Gate(token, StatsReaders).error) else
        var rows := Rows(orders, nextOrderId);
        assert forall k :: k in orders ==> (k, orders[k]) in rows;
        if Stats(rows, now).Ok? then
          StatsCountsBounded(rows, now);
          Stats(rows, now)
        else Stats(rows, now)
    }
  }
}
