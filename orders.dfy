/**
 * The pure part of the order endpoints (app/orders/router.py): the checks
 * `create_order` runs before it writes anything, the stock it deducts, the
 * unguarded status/notes patch and the order listings.
 */
module Orders {
  import opened Wrappers
  import opened Domain
  import opened Query
  import opened OrderSchemas

  // ---------------------------------------------------------- create_order

  /** A line passes the check: its product exists and has at least `quantity` in stock. */
  predicate LineAvailable(products: map<int, Product>, line: OrderItemCreate) {
    line.productId in products && products[line.productId].stock >= line.quantity
  }

  /** A missing product is 404, a short stock 400. */
  function LineError(products: map<int, Product>, line: OrderItemCreate): Error {
    if line.productId !in products then NotFound else BadRequest
  }

  /**
   * The validation loop: every line is checked against the stock as it is
   * before the order, and the first failing line decides the error.
   */
  function CheckLines(products: map<int, Product>, lines: seq<OrderItemCreate>): (e: Option<Error>)
    ensures e.None? <==> forall i :: 0 <= i < |lines| ==> LineAvailable(products, lines[i])
    ensures e.Some? ==>
      exists i :: 0 <= i < |lines| && !LineAvailable(products, lines[i]) &&
        e.value == LineError(products, lines[i]) &&
        forall j :: 0 <= j < i ==> LineAvailable(products, lines[j])
  {
    if lines == [] then None
    else if !LineAvailable(products, lines[0]) then Some(LineError(products, lines[0]))
    else
      var e := CheckLines(products, lines[1..]);
      assert forall i :: 1 <= i < |lines| ==> lines[i] == lines[1..][i - 1];
      e
  }

  /** Once the lines before `i` pass and line `i` does not, line `i` decides the check. */
  lemma FirstFailingLine(products: map<int, Product>, lines: seq<OrderItemCreate>, i: int)
    requires 0 <= i < |lines| && !LineAvailable(products, lines[i])
    requires forall j :: 0 <= j < i ==> LineAvailable(products, lines[j])
    ensures CheckLines(products, lines) == Some(LineError(products, lines[i]))
  {
    var e := CheckLines(products, lines);
    var k :| 0 <= k < |lines| && !LineAvailable(products, lines[k]) &&
      e.value == LineError(products, lines[k]) &&
      forall j :: 0 <= j < k ==> LineAvailable(products, lines[j]);
    assert k == i;
  }

  /** The total quantity `lines` ask of product `pid`. */
  function Demand(lines: seq<OrderItemCreate>, pid: int): int
    decreases |lines|
  {
    if lines == [] then 0
    else
      var last := lines[|lines| - 1];
      Demand(lines[..|lines| - 1], pid) + (if last.productId == pid then last.quantity else 0)
  }

  /** `b` is `a` with perhaps another stock figure. */
  predicate OnlyStockDiffers(a: Product, b: Product) {
    b == a.(stock := b.stock)
  }

  /** `product.stock -= item.quantity` for one line. */
  function TakeLine(products: map<int, Product>, line: OrderItemCreate): (r: map<int, Product>)
    requires line.productId in products
  {
    products[line.productId := products[line.productId].(stock := products[line.productId].stock - line.quantity)]
  }

  /** `product.stock -= item.quantity`, line after line. */
  function Deduct(products: map<int, Product>, lines: seq<OrderItemCreate>): (r: map<int, Product>)
    requires forall i :: 0 <= i < |lines| ==> lines[i].productId in products
    ensures r.Keys == products.Keys
    ensures forall k :: k in r ==> OnlyStockDiffers(products[k], r[k])
    decreases |lines|
  {
    if lines == [] then products
    else
      var before := Deduct(products, lines[..|lines| - 1]);
      TakeLine(before, lines[|lines| - 1])
  }

  /** One more line of the loop: its deduction and its item come last. */
  lemma DeductStep(products: map<int, Product>, lines: seq<OrderItemCreate>, j: int)
    requires 0 <= j < |lines|
    requires forall i :: 0 <= i <= j ==> lines[i].productId in products
    ensures Deduct(products, lines[..j + 1]) == TakeLine(Deduct(products, lines[..j]), lines[j])
    ensures Items(products, lines[..j + 1]) == Items(products, lines[..j]) + [ItemFor(products, lines[j])]
  {
    assert lines[..j + 1][..j] == lines[..j];
  }

  /** Each product loses exactly what the lines ask of it, and only that. */
  lemma {:induction false} DeductStock(products: map<int, Product>, lines: seq<OrderItemCreate>, pid: int)
    requires forall i :: 0 <= i < |lines| ==> lines[i].productId in products
    requires pid in products
    ensures Deduct(products, lines)[pid].stock == products[pid].stock - Demand(lines, pid)
    decreases |lines|
  {
    if lines != [] {
      DeductStock(products, lines[..|lines| - 1], pid);
    }
  }

  /** A product no line names is not asked for. */
  lemma {:induction false} DemandUnnamed(lines: seq<OrderItemCreate>, pid: int)
    requires forall i :: 0 <= i < |lines| ==> lines[i].productId != pid
    ensures Demand(lines, pid) == 0
    decreases |lines|
  {
    if lines != [] {
      DemandUnnamed(lines[..|lines| - 1], pid);
    }
  }

  /** When no product is named twice, a product's demand is its one line's quantity. */
  lemma {:induction false} DemandDistinct(lines: seq<OrderItemCreate>, i: int)
    requires 0 <= i < |lines|
    requires forall a, b :: 0 <= a < b < |lines| ==> lines[a].productId != lines[b].productId
    ensures Demand(lines, lines[i].productId) == lines[i].quantity
    decreases |lines|
  {
    var init := lines[..|lines| - 1];
    if i == |lines| - 1 {
      DemandUnnamed(init, lines[i].productId);
    } else {
      assert init[i] == lines[i];
      DemandDistinct(init, i);
    }
  }

  /**
   * With every product named at most once, an order that passes the check
   * leaves every stock at or above zero.
   */
  lemma NoOverdraftWhenDistinct(products: map<int, Product>, lines: seq<OrderItemCreate>)
    requires CheckLines(products, lines).None?
    requires forall a, b :: 0 <= a < b < |lines| ==> lines[a].productId != lines[b].productId
    requires forall k :: k in products ==> products[k].stock >= 0
    ensures forall k :: k in Deduct(products, lines) ==> Deduct(products, lines)[k].stock >= 0
  {
    forall k | k in products
      ensures Deduct(products, lines)[k].stock >= 0
    {
      DeductStock(products, lines, k);
      if i :| 0 <= i < |lines| && lines[i].productId == k {
        DemandDistinct(lines, i);
        assert LineAvailable(products, lines[i]);
      } else {
        DemandUnnamed(lines, k);
      }
    }
  }

  /** The product the order-creation examples use: one unit of coffee in stock. */
  function OneCoffee(): map<int, Product> {
    map[1 := Product("Cafe", 250, "Bebidas", None, 1, true)]
  }

  /**
   * Each line is checked against the stock before the order, so two lines
   * for the same product both pass and together drive the stock below zero.
   */
  lemma DuplicateLinesOverdraw()
    ensures CheckLines(OneCoffee(), [OrderItemCreate(1, 1, None), OrderItemCreate(1, 1, None)]).None?
    ensures Deduct(OneCoffee(), [OrderItemCreate(1, 1, None), OrderItemCreate(1, 1, None)])[1].stock == -1
  {
    var lines := [OrderItemCreate(1, 1, None), OrderItemCreate(1, 1, None)];
    assert LineAvailable(OneCoffee(), lines[0]) && LineAvailable(OneCoffee(), lines[1]);
    assert lines[..1] == [lines[0]] && lines[..1][..0] == [];
  }

  /** The quantity is unconstrained, so a negative line passes and adds stock. */
  lemma NegativeQuantityRestocks()
    ensures CheckLines(OneCoffee(), [OrderItemCreate(1, -5, None)]).None?
    ensures Deduct(OneCoffee(), [OrderItemCreate(1, -5, None)])[1].stock == 6
  {
    var lines := [OrderItemCreate(1, -5, None)];
    assert LineAvailable(OneCoffee(), lines[0]);
    assert lines[..0] == [];
  }

  // ------------------------------------------------ the corrected line check

  /**
   * Line `i` fits: its product exists, it asks for a positive quantity, and
   * that quantity is still in stock after the earlier lines of the order.
   */
  predicate LineFits(products: map<int, Product>, lines: seq<OrderItemCreate>, i: int)
    requires 0 <= i < |lines|
  {
    var line := lines[i];
    line.productId in products && line.quantity > 0 &&
    Demand(lines[..i], line.productId) + line.quantity <= products[line.productId].stock
  }

  /** Whether a line fits depends only on the lines up to it. */
  lemma FitsPrefix(products: map<int, Product>, lines: seq<OrderItemCreate>, n: int)
    requires 0 <= n <= |lines|
    ensures forall j :: 0 <= j < n ==> LineFits(products, lines[..n], j) == LineFits(products, lines, j)
  {
    forall j | 0 <= j < n
      ensures LineFits(products, lines[..n], j) == LineFits(products, lines, j)
    {
      assert lines[..n][..j] == lines[..j];
    }
  }

  /**
   * The evidently intended check: each line is compared with what is left
   * after the earlier lines of the same order, and a quantity must be
   * positive. The first line that does not fit decides the error.
   */
  function CheckLinesCumulative(products: map<int, Product>, lines: seq<OrderItemCreate>): (e: Option<Error>)
    ensures e.None? <==> forall i :: 0 <= i < |lines| ==> LineFits(products, lines, i)
    ensures e.Some? ==>
      exists i :: 0 <= i < |lines| && !LineFits(products, lines, i) &&
        e.value == LineError(products, lines[i]) &&
        forall j :: 0 <= j < i ==> LineFits(products, lines, j)
    decreases |lines|
  {
    if lines == [] then None
    else
      var n := |lines| - 1;
      var line := lines[n];
      FitsPrefix(products, lines, n);
      var e := CheckLinesCumulative(products, lines[..n]);
      if e.Some? then e
      else if line.productId !in products then
        assert !LineFits(products, lines, n);
        Some(NotFound)
      else if line.quantity <= 0 || products[line.productId].stock < Demand(lines[..n], line.productId) + line.quantity
      then
        assert !LineFits(products, lines, n);
        Some(BadRequest)
      else None
  }

  /** One more line of the check, once the earlier lines fit. */
  lemma CumulativeStep(products: map<int, Product>, lines: seq<OrderItemCreate>, i: int)
    requires 0 <= i < |lines|
    requires CheckLinesCumulative(products, lines[..i]).None?
    ensures var line := lines[i];
      CheckLinesCumulative(products, lines[..i + 1])
        == if line.productId !in products then Some(NotFound)
           else if line.quantity <= 0 || products[line.productId].stock < Demand(lines[..i], line.productId) + line.quantity
           then Some(BadRequest)
           else None
  {
    assert lines[..i + 1][..i] == lines[..i];
  }

  /** Once a prefix of the lines fails, the whole check fails the same way. */
  lemma {:induction false} CumulativeFailurePersists(products: map<int, Product>, lines: seq<OrderItemCreate>, n: int)
    requires 0 <= n <= |lines|
    requires CheckLinesCumulative(products, lines[..n]).Some?
    ensures CheckLinesCumulative(products, lines) == CheckLinesCumulative(products, lines[..n])
    decreases |lines|
  {
    if n == |lines| {
      assert lines[..n] == lines;
    } else {
      var init := lines[..|lines| - 1];
      assert init[..n] == lines[..n];
      CumulativeFailurePersists(products, init, n);
    }
  }

  /** Under the corrected check the demand for a product is never negative and never exceeds its stock. */
  lemma {:induction false} CumulativeDemand(products: map<int, Product>, lines: seq<OrderItemCreate>, pid: int)
    requires CheckLinesCumulative(products, lines).None?
    ensures Demand(lines, pid) >= 0
    ensures Demand(lines, pid) > 0 ==> pid in products && Demand(lines, pid) <= products[pid].stock
    decreases |lines|
  {
    if lines != [] {
      var n := |lines| - 1;
      FitsPrefix(products, lines, n);
      assert LineFits(products, lines, n);
      CumulativeDemand(products, lines[..n], pid);
    }
  }

  /** The corrected check keeps every stock in [0, its old value]. */
  lemma CorrectedCheckKeepsStock(products: map<int, Product>, lines: seq<OrderItemCreate>)
    requires CheckLinesCumulative(products, lines).None?
    requires forall k :: k in products ==> products[k].stock >= 0
    ensures forall i :: 0 <= i < |lines| ==> lines[i].productId in products
    ensures forall k :: k in products ==>
      0 <= Deduct(products, lines)[k].stock <= products[k].stock
  {
    forall i | 0 <= i < |lines|
      ensures lines[i].productId in products
    {
      assert LineFits(products, lines, i);
    }
    forall k | k in products
      ensures 0 <= Deduct(products, lines)[k].stock <= products[k].stock
    {
      DeductStock(products, lines, k);
      CumulativeDemand(products, lines, k);
    }
  }

  /** The corrected check turns both counterexamples away. */
  lemma CorrectedCheckRejectsCounterexamples()
    ensures CheckLinesCumulative(OneCoffee(), [OrderItemCreate(1, 1, None), OrderItemCreate(1, 1, None)]) == Some(BadRequest)
    ensures CheckLinesCumulative(OneCoffee(), [OrderItemCreate(1, -5, None)]) == Some(BadRequest)
  {
    var twice := [OrderItemCreate(1, 1, None), OrderItemCreate(1, 1, None)];
    assert twice[..1] == [twice[0]] && twice[..1][..0] == [];
    assert Demand(twice[..1], 1) == 1;
    assert !LineFits(OneCoffee(), twice, 1);
    var negative := [OrderItemCreate(1, -5, None)];
    assert !LineFits(OneCoffee(), negative, 0);
  }

  /**
   * Everything `create_order` checks before writing: the table, then the
   * lines, each against the stock before the order.
   */
  function CheckOrder(tables: map<int, Table>, products: map<int, Product>, req: OrderCreate): (e: Option<Error>)
    ensures req.tableId !in tables ==> e == Some(NotFound)
    ensures req.tableId in tables && tables[req.tableId].status != Free ==> e == Some(BadRequest)
    ensures e.None? <==>
      req.tableId in tables && tables[req.tableId].status == Free &&
      forall i :: 0 <= i < |req.items| ==> LineAvailable(products, req.items[i])
    ensures req.tableId in tables && tables[req.tableId].status == Free ==> e == CheckLines(products, req.items)
  {
    if req.tableId !in tables then Some(NotFound)
    else if tables[req.tableId].status != Free then Some(BadRequest)
    else CheckLines(products, req.items)
  }

  /** The same table checks followed by the corrected line check. */
  function CheckOrderCorrected(tables: map<int, Table>, products: map<int, Product>, req: OrderCreate): (e: Option<Error>)
    ensures req.tableId !in tables ==> e == Some(NotFound)
    ensures req.tableId in tables && tables[req.tableId].status != Free ==> e == Some(BadRequest)
    ensures e.None? <==>
      req.tableId in tables && tables[req.tableId].status == Free &&
      forall i :: 0 <= i < |req.items| ==> LineFits(products, req.items, i)
    ensures req.tableId in tables && tables[req.tableId].status == Free ==> e == CheckLinesCumulative(products, req.items)
  {
    if req.tableId !in tables then Some(NotFound)
    else if tables[req.tableId].status != Free then Some(BadRequest)
    else CheckLinesCumulative(products, req.items)
  }

  /**
   * The check reads only the products' stock: `is_active` plays no part,
   * so an inactive product can be ordered.
   */
  lemma {:induction false} CheckLinesReadsOnlyStock(products: map<int, Product>, other: map<int, Product>,
                                                    lines: seq<OrderItemCreate>)
    requires products.Keys == other.Keys
    requires forall k :: k in products ==> products[k].stock == other[k].stock
    ensures CheckLines(products, lines) == CheckLines(other, lines)
    decreases |lines|
  {
    if lines != [] {
      CheckLinesReadsOnlyStock(products, other, lines[1..]);
    }
  }

  /** The corrected check, too, reads only the products' stock. */
  lemma {:induction false} CumulativeReadsOnlyStock(products: map<int, Product>, other: map<int, Product>,
                                                    lines: seq<OrderItemCreate>)
    requires products.Keys == other.Keys
    requires forall k :: k in products ==> products[k].stock == other[k].stock
    ensures CheckLinesCumulative(products, lines) == CheckLinesCumulative(other, lines)
    decreases |lines|
  {
    if lines != [] {
      CumulativeReadsOnlyStock(products, other, lines[..|lines| - 1]);
    }
  }

  /** Deactivating a table or a product changes neither order check. */
  lemma CheckIgnoresActive(tables: map<int, Table>, products: map<int, Product>, req: OrderCreate,
                           t: int, p: int, tableActive: bool, productActive: bool)
    requires t in tables && p in products
    ensures CheckOrder(tables[t := tables[t].(isActive := tableActive)],
                       products[p := products[p].(isActive := productActive)], req)
         == CheckOrder(tables, products, req)
    ensures CheckOrderCorrected(tables[t := tables[t].(isActive := tableActive)],
                                products[p := products[p].(isActive := productActive)], req)
         == CheckOrderCorrected(tables, products, req)
  {
    var other := products[p := products[p].(isActive := productActive)];
    CheckLinesReadsOnlyStock(products, other, req.items);
    CumulativeReadsOnlyStock(products, other, req.items);
  }

  /** The item row written for a line: the product's current price is copied. */
  function ItemFor(products: map<int, Product>, line: OrderItemCreate): (it: OrderItem)
    requires line.productId in products
    ensures it.productId == line.productId && it.quantity == line.quantity && it.notes == line.notes
    ensures it.unitPrice == products[line.productId].price
  {
    OrderItem(line.productId, line.quantity, products[line.productId].price, line.notes)
  }

  /** One item per line, in request order, each priced from `products`. */
  function Items(products: map<int, Product>, lines: seq<OrderItemCreate>): (items: seq<OrderItem>)
    requires forall i :: 0 <= i < |lines| ==> lines[i].productId in products
    ensures |items| == |lines|
    ensures forall i :: 0 <= i < |lines| ==> items[i] == ItemFor(products, lines[i])
    decreases |lines|
  {
    if lines == [] then []
    else Items(products, lines[..|lines| - 1]) + [ItemFor(products, lines[|lines| - 1])]
  }

  /**
   * The order row `create_order` inserts: pending, unpaid, and with a total
   * of zero, since the handler never sums its items.
   */
  function NewOrder(req: OrderCreate, userId: int, now: int, items: seq<OrderItem>): (o: Order)
    ensures o.status == Pending && o.paymentStatus == PaymentPending && o.totalAmount == 0
    ensures o.tableId == req.tableId && o.userId == userId && o.createdAt == now
    ensures o.notes == req.notes && o.items == items
  {
    Order(req.tableId, userId, now, Pending, 0, PaymentPending, req.notes, items)
  }

  // ---------------------------------------------------- update_order_status

  /**
   * The patch: a present status replaces the old one whatever it was, a
   * present note replaces the old note; nothing else changes.
   */
  function Patch(o: Order, u: OrderUpdate): (r: Order)
    ensures u.status.Some? ==> r.status == u.status.value
    ensures u.status.None? ==> r.status == o.status
    ensures u.notes.Some? ==> r.notes == u.notes
    ensures u.notes.None? ==> r.notes == o.notes
    ensures r.(status := o.status, notes := o.notes) == o
  {
    var withStatus := if u.status.Some? then o.(status := u.status.value) else o;
    if u.notes.Some? then withStatus.(notes := u.notes) else withStatus
  }

  /** Patching twice with the same body is patching once. */
  lemma PatchIdempotent(o: Order, u: OrderUpdate)
    ensures Patch(Patch(o, u), u) == Patch(o, u)
  {
  }

  /** The patch reaches every status from every status, bypassing the kitchen's transitions. */
  lemma PatchReachesAnyStatus(o: Order, s: OrderStatus)
    ensures Patch(o, OrderUpdate(Some(s), None)).status == s
    ensures Patch(o, OrderUpdate(Some(s), None)).items == o.items
  {
  }

  // --------------------------------------------------------------- listings

  predicate HasStatus(x: (int, Order), status: Option<OrderStatus>) {
    status.None? || x.1.status == status.value
  }

  function StatusP(status: Option<OrderStatus>): ((int, Order)) -> bool {
    x => HasStatus(x, status)
  }

  /** `Order.status == status`, the filter get_orders adds when a status is given. */
  function StatusIsP(s: OrderStatus): ((int, Order)) -> bool {
    (x: (int, Order)) => x.1.status == s
  }

  /** get_orders: the optional status filter, then the page. */
  function ListOrders(rows: seq<(int, Order)>, status: Option<OrderStatus>, skip: nat, limit: nat)
    : (r: seq<(int, Order)>)
    ensures r == Page(Filter(rows, StatusP(status)), skip, limit)
  {
    var matching := if status.Some? then Filter(rows, StatusIsP(status.value)) else rows;
    if status.Some? then
      FilterSame(rows, StatusIsP(status.value), StatusP(status));
      Page(matching, skip, limit)
    else
      FilterAll(rows, StatusP(status));
      Page(matching, skip, limit)
  }

  /** Listed orders keep primary-key order. */
  lemma ListOrdersKeepsIdOrder(rows: seq<(int, Order)>, status: Option<OrderStatus>, skip: nat, limit: nat)
    requires IdsIncreasing(rows)
    ensures IdsIncreasing(ListOrders(rows, status, skip, limit))
  {
    FilterKeepsIdOrder(rows, StatusP(status));
    PageKeepsIdOrder(Filter(rows, StatusP(status)), skip, limit);
  }

  /** The statuses the kitchen still has to work on. */
  predicate InKitchen(s: OrderStatus) {
    s == Pending || s == InPreparation
  }

  /** The kitchen's filter on order rows. */
  function KitchenP(): ((int, Order)) -> bool {
    (x: (int, Order)) => InKitchen(x.1.status)
  }

  /**
   * get_kitchen_orders: every pending or in-preparation order, unpaged, in id
   * order; one entry per kitchen row, so over rows with increasing ids no
   * order is listed twice.
   */
  function KitchenOrders(rows: seq<(int, Order)>): (r: seq<(int, Order)>)
    ensures forall i :: 0 <= i < |r| ==> r[i] in rows && InKitchen(r[i].1.status)
    ensures forall i :: 0 <= i < |rows| && InKitchen(rows[i].1.status) ==> rows[i] in r
    ensures |r| == Count(rows, KitchenP())
    ensures IdsIncreasing(rows) ==> IdsIncreasing(r)
  {
    CountFilter(rows, KitchenP());
    if IdsIncreasing(rows) then
      FilterKeepsIdOrder(rows, KitchenP());
      Filter(rows, KitchenP())
    else
      Filter(rows, KitchenP())
  }
}
