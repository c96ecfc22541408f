/**
 * The persistent records of the café and their enumerations
 * (app/models.py). Every row is stored in a map keyed by its
 * autoincrement id, so the records below carry no id of their own.
 * Money is integer cents; timestamps are integer seconds.
 */
module Domain {
  import opened Wrappers

  datatype TableStatus = Free | Occupied | PendingPayment

  datatype OrderStatus = Pending | InPreparation | Ready | Delivered | Cancelled

  datatype PaymentStatus = PaymentPending | PaymentCompleted | PaymentFailed | PaymentRefunded

  datatype PaymentMethod = Cash | MercadoPago | Crypto

  datatype UserRole = Cashier | Cook | Admin

  /** The string value each enumeration member carries in the source. */
  function TableStatusName(s: TableStatus): string {
    match s
    case Free => "free"
    case Occupied => "occupied"
    case PendingPayment => "pending_payment"
  }

  function OrderStatusName(s: OrderStatus): string {
    match s
    case Pending => "pending"
    case InPreparation => "in_preparation"
    case Ready => "ready"
    case Delivered => "delivered"
    case Cancelled => "cancelled"
  }

  function RoleName(r: UserRole): string {
    match r
    case Cashier => "cashier"
    case Cook => "cook"
    case Admin => "admin"
  }

  /** Parsing a string into an enumeration accepts exactly the member names. */
  function ParseTableStatus(s: string): (r: Option<TableStatus>)
    ensures r.Some? ==> TableStatusName(r.value) == s
    ensures forall t :: TableStatusName(t) == s ==> r == Some(t)
  {
    if s == "free" then Some(Free)
    else if s == "occupied" then Some(Occupied)
    else if s == "pending_payment" then Some(PendingPayment)
    else None
  }

  function ParseOrderStatus(s: string): (r: Option<OrderStatus>)
    ensures r.Some? ==> OrderStatusName(r.value) == s
    ensures forall t :: OrderStatusName(t) == s ==> r == Some(t)
  {
    if s == "pending" then Some(Pending)
    else if s == "in_preparation" then Some(InPreparation)
    else if s == "ready" then Some(Ready)
    else if s == "delivered" then Some(Delivered)
    else if s == "cancelled" then Some(Cancelled)
    else None
  }

  function ParseRole(s: string): (r: Option<UserRole>)
    ensures r.Some? ==> RoleName(r.value) == s
    ensures forall t :: RoleName(t) == s ==> r == Some(t)
  {
    if s == "cashier" then Some(Cashier)
    else if s == "cook" then Some(Cook)
    else if s == "admin" then Some(Admin)
    else None
  }

  /** A user account; `passwordHash` is the only trace of the password. */
  datatype User = User(
    username: string,
    passwordHash: string,
    role: UserRole,
    isActive: bool,
    lastLogin: Option<int>)

  datatype Table = Table(status: TableStatus, capacity: int, isActive: bool)

  datatype Product = Product(
    name: string,
    price: int,
    category: string,
    description: Option<string>,
    stock: int,
    isActive: bool)

  /** A line of an order; `unitPrice` is the product's price when ordered. */
  datatype OrderItem = OrderItem(
    productId: int,
    quantity: int,
    unitPrice: int,
    notes: Option<string>)

  /** An order owns its items: they live and die with it. */
  datatype Order = Order(
    tableId: int,
    userId: int,
    createdAt: int,
    status: OrderStatus,
    totalAmount: int,
    paymentStatus: PaymentStatus,
    notes: Option<string>,
    items: seq<OrderItem>)

  /** Record shape only: no operation creates or changes payments. */
  datatype Payment = Payment(
    orderId: int,
    paymentMethod: PaymentMethod,
    amount: int,
    status: PaymentStatus,
    externalRef: Option<string>,
    createdAt: int)
}
