/**
 * The pure part of the product and table endpoints
 * (app/products/router.py, app/tables/router.py): the rows a create
 * inserts, the attribute assignments a partial update performs, and the
 * list filters.
 */
module Catalog {
  import opened Wrappers
  import opened Domain
  import opened Query
  import opened ProductSchemas
  import opened TableSchemas

  // ---------------------------------------------------------------- products

  /** The row `create_product` inserts: the validated fields, active. */
  function NewProduct(c: ProductCreate): (p: Product)
    ensures p.isActive && p.stock == c.stock && p.price == c.price
    ensures p.name == c.name && p.category == c.category && p.description == c.description
  {
    Product(c.name, c.price, c.category, c.description, c.stock, true)
  }

  /** One `setattr(product, key, value)` of `update_product`. */
  datatype ProductField =
    | SetName(name: string)
    | SetPrice(price: Price)
    | SetCategory(category: string)
    | SetDescription(description: Option<string>)
    | SetStock(stock: nat)
    | SetActive(isActive: bool)

  /** The assignment for field `k` of the schema (name, price, category, description, stock, is_active), when set. */
  function ProductFieldAt(u: ProductUpdate, k: nat): (o: seq<ProductField>)
    ensures |o| <= 1
  {
    if k == 0 then (if u.name.Some? then [SetName(u.name.value)] else [])
    else if k == 1 then (if u.price.Some? then [SetPrice(u.price.value)] else [])
    else if k == 2 then (if u.category.Some? then [SetCategory(u.category.value)] else [])
    else if k == 3 then (if u.description.Some? then [SetDescription(u.description.value)] else [])
    else if k == 4 then (if u.stock.Some? then [SetStock(u.stock.value)] else [])
    else if k == 5 then (if u.isActive.Some? then [SetActive(u.isActive.value)] else [])
    else []
  }

  function ProductFieldsFrom(u: ProductUpdate, k: nat): seq<ProductField>
    decreases 6 - k
  {
    if k >= 6 then [] else ProductFieldAt(u, k) + ProductFieldsFrom(u, k + 1)
  }

  /** `update.dict(exclude_unset=True).items()`: the present fields, in declaration order. */
  function ProductFields(u: ProductUpdate): seq<ProductField> {
    ProductFieldsFrom(u, 0)
  }

  function SetProductAttr(p: Product, f: ProductField): Product {
    match f
    case SetName(v) => p.(name := v)
    case SetPrice(v) => p.(price := v)
    case SetCategory(v) => p.(category := v)
    case SetDescription(v) => p.(description := v)
    case SetStock(v) => p.(stock := v)
    case SetActive(v) => p.(isActive := v)
  }

  /** Reference meaning of a partial update: a present field replaces, an absent one stays. */
  ghost predicate MergedProduct(p: Product, u: ProductUpdate, q: Product) {
    MergedProductBefore(p, u, 6, q)
  }

  /** `q` has the fields of `u` before position `k` merged into `p`, and `p`'s other fields. */
  ghost predicate MergedProductBefore(p: Product, u: ProductUpdate, k: nat, q: Product) {
    && q.name == (if k > 0 && u.name.Some? then u.name.value else p.name)
    && q.price == (if k > 1 && u.price.Some? then u.price.value as int else p.price)
    && q.category == (if k > 2 && u.category.Some? then u.category.value else p.category)
    && q.description == (if k > 3 && u.description.Some? then u.description.value else p.description)
    && q.stock == (if k > 4 && u.stock.Some? then u.stock.value as int else p.stock)
    && q.isActive == (if k > 5 && u.isActive.Some? then u.isActive.value else p.isActive)
  }

  lemma ProductMergeStep(p: Product, u: ProductUpdate, k: nat, q: Product)
    requires k < 6 && MergedProductBefore(p, u, k, q)
    ensures MergedProductBefore(p, u, k + 1,
      if ProductFieldAt(u, k) == [] then q else SetProductAttr(q, ProductFieldAt(u, k)[0]))
  {
    if k == 0 {} else if k == 1 {} else if k == 2 {} else if k == 3 {} else if k == 4 {} else {}
  }

  lemma {:induction false} ProductFieldsFromMerge(p: Product, u: ProductUpdate, k: nat, q: Product)
    requires k <= 6 && MergedProductBefore(p, u, k, q)
    ensures MergedProduct(p, u, Fold(q, ProductFieldsFrom(u, k), SetProductAttr))
    decreases 6 - k
  {
    if k == 6 {
      assert ProductFieldsFrom(u, k) == [];
    } else {
      var o := ProductFieldAt(u, k);
      FoldOpt(q, o, ProductFieldsFrom(u, k + 1), SetProductAttr);
      ProductMergeStep(p, u, k, q);
      ProductFieldsFromMerge(p, u, k + 1, if o == [] then q else SetProductAttr(q, o[0]));
    }
  }

  /** The setattr loop over the present fields performs exactly the partial merge. */
  lemma ProductFieldsMerge(p: Product, u: ProductUpdate)
    ensures MergedProduct(p, u, Fold(p, ProductFields(u), SetProductAttr))
  {
    ProductFieldsFromMerge(p, u, 0, p);
  }

  /** `if category:` filters only on a present, non-empty category. */
  predicate FiltersCategory(category: Option<string>) {
    category.Some? && category.value != ""
  }

  predicate ProductMatches(x: (int, Product), category: Option<string>, activeOnly: bool) {
    (activeOnly ==> x.1.isActive) && (FiltersCategory(category) ==> x.1.category == category.value)
  }

  function MatchesP(category: Option<string>, activeOnly: bool): ((int, Product)) -> bool {
    x => ProductMatches(x, category, activeOnly)
  }

  /** `Product.is_active == True`, the filter added when `active_only` is set. */
  function ActiveP(): ((int, Product)) -> bool {
    (x: (int, Product)) => x.1.isActive
  }

  /** `Product.category == category`, the filter added when a category is given. */
  function CategoryP(c: string): ((int, Product)) -> bool {
    (x: (int, Product)) => x.1.category == c
  }

  /** The query get_products builds: the active filter, then the category filter. */
  function Matching(rows: seq<(int, Product)>, category: Option<string>, activeOnly: bool): seq<(int, Product)> {
    var active := if activeOnly then Filter(rows, ActiveP()) else rows;
    if FiltersCategory(category) then Filter(active, CategoryP(category.value)) else active
  }

  /** The filters added one after the other keep exactly the matching products. */
  lemma MatchingIsFilter(rows: seq<(int, Product)>, category: Option<string>, activeOnly: bool)
    ensures Matching(rows, category, activeOnly) == Filter(rows, MatchesP(category, activeOnly))
  {
    var p := MatchesP(category, activeOnly);
    if activeOnly && FiltersCategory(category) {
      FilterFilter(rows, ActiveP(), CategoryP(category.value), p);
    } else if activeOnly {
      FilterSame(rows, ActiveP(), p);
    } else if FiltersCategory(category) {
      FilterSame(rows, CategoryP(category.value), p);
    } else {
      FilterAll(rows, p);
    }
  }

  /** get_products: the matching products, then the page. */
  function ListProducts(rows: seq<(int, Product)>, skip: nat, limit: nat, category: Option<string>, activeOnly: bool)
    : (r: seq<(int, Product)>)
    ensures r == Page(Filter(rows, MatchesP(category, activeOnly)), skip, limit)
  {
    MatchingIsFilter(rows, category, activeOnly);
    Page(Matching(rows, category, activeOnly), skip, limit)
  }

  /** Listed products keep primary-key order. */
  lemma ListProductsKeepsIdOrder(rows: seq<(int, Product)>, skip: nat, limit: nat, category: Option<string>, activeOnly: bool)
    requires IdsIncreasing(rows)
    ensures IdsIncreasing(ListProducts(rows, skip, limit, category, activeOnly))
  {
    FilterKeepsIdOrder(rows, MatchesP(category, activeOnly));
    PageKeepsIdOrder(Filter(rows, MatchesP(category, activeOnly)), skip, limit);
  }

  // The query-parameter defaults of the list endpoints.
  const DefaultSkip: nat := 0
  const DefaultLimit: nat := 100
  const DefaultActiveOnly: bool := true

  /** With every parameter left at its default, get_products lists the first 100 active products. */
  lemma ListProductsDefaults(rows: seq<(int, Product)>)
    ensures var active := Filter(rows, ActiveP());
      ListProducts(rows, DefaultSkip, DefaultLimit, None, DefaultActiveOnly) == active[..Min(DefaultLimit, |active|)]
  {
    FilterSame(rows, ActiveP(), MatchesP(None, DefaultActiveOnly));
  }

  /** get_categories: every category of every product (inactive ones too), once each. */
  function Categories(rows: seq<(int, Product)>): (r: seq<string>)
    ensures forall i, j :: 0 <= i < j < |r| ==> r[i] != r[j]
    ensures forall c :: c in r <==> exists i :: 0 <= i < |rows| && rows[i].1.category == c
    decreases |rows|
  {
    if rows == [] then []
    else
      var init := rows[..|rows| - 1];
      var rest := Categories(init);
      var c := rows[|rows| - 1].1.category;
      assert forall i :: 0 <= i < |init| ==> init[i] == rows[i];
      if c in rest then rest else rest + [c]
  }

  // ------------------------------------------------------------------ tables

  /** The row `create_table` inserts: only the capacity is taken from the request. */
  function NewTable(c: TableCreate): (t: Table)
    ensures t.status == Free && t.isActive && t.capacity == c.capacity
  {
    Table(Free, c.capacity, true)
  }

  /** One `setattr(table, key, value)` of `update_table`. */
  datatype TableField =
    | SetCapacity(capacity: Capacity)
    | SetStatus(status: TableStatus)
    | SetTableActive(isActive: bool)

  /** The assignment for field `k` of the schema (capacity, status, is_active), when set. */
  function TableFieldAt(u: TableUpdate, k: nat): (o: seq<TableField>)
    ensures |o| <= 1
  {
    if k == 0 then (if u.capacity.Some? then [SetCapacity(u.capacity.value)] else [])
    else if k == 1 then (if u.status.Some? then [SetStatus(u.status.value)] else [])
    else if k == 2 then (if u.isActive.Some? then [SetTableActive(u.isActive.value)] else [])
    else []
  }

  function TableFieldsFrom(u: TableUpdate, k: nat): seq<TableField>
    decreases 3 - k
  {
    if k >= 3 then [] else TableFieldAt(u, k) + TableFieldsFrom(u, k + 1)
  }

  function TableFields(u: TableUpdate): seq<TableField> {
    TableFieldsFrom(u, 0)
  }

  function SetTableAttr(t: Table, f: TableField): Table {
    match f
    case SetCapacity(v) => t.(capacity := v)
    case SetStatus(v) => t.(status := v)
    case SetTableActive(v) => t.(isActive := v)
  }

  ghost predicate MergedTable(t: Table, u: TableUpdate, q: Table) {
    MergedTableBefore(t, u, 3, q)
  }

  ghost predicate MergedTableBefore(t: Table, u: TableUpdate, k: nat, q: Table) {
    && q.capacity == (if k > 0 && u.capacity.Some? then u.capacity.value as int else t.capacity)
    && q.status == (if k > 1 && u.status.Some? then u.status.value else t.status)
    && q.isActive == (if k > 2 && u.isActive.Some? then u.isActive.value else t.isActive)
  }

  lemma TableMergeStep(t: Table, u: TableUpdate, k: nat, q: Table)
    requires k < 3 && MergedTableBefore(t, u, k, q)
    ensures MergedTableBefore(t, u, k + 1,
      if TableFieldAt(u, k) == [] then q else SetTableAttr(q, TableFieldAt(u, k)[0]))
  {
    if k == 0 {} else if k == 1 {} else {}
  }

  lemma {:induction false} TableFieldsFromMerge(t: Table, u: TableUpdate, k: nat, q: Table)
    requires k <= 3 && MergedTableBefore(t, u, k, q)
    ensures MergedTable(t, u, Fold(q, TableFieldsFrom(u, k), SetTableAttr))
    decreases 3 - k
  {
    if k == 3 {
      assert TableFieldsFrom(u, k) == [];
    } else {
      var o := TableFieldAt(u, k);
      FoldOpt(q, o, TableFieldsFrom(u, k + 1), SetTableAttr);
      TableMergeStep(t, u, k, q);
      TableFieldsFromMerge(t, u, k + 1, if o == [] then q else SetTableAttr(q, o[0]));
    }
  }

  /** The setattr loop over the present fields performs exactly the partial merge. */
  lemma TableFieldsMerge(t: Table, u: TableUpdate)
    ensures MergedTable(t, u, Fold(t, TableFields(u), SetTableAttr))
  {
    TableFieldsFromMerge(t, u, 0, t);
  }
}
