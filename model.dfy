/** The records the stores hold and the services exchange: products, orders
    with their line items and totals, payments and users, the status and role
    enumerations, the error kinds, and the partial records (`updates`) that the
    repositories merge into a stored record. Fields left out of a record
    constructor take the defaults of the model files: an order starts pending
    with no payment, a user is a customer unless told otherwise. */
module Model {
  import opened Seqs

  datatype Role = Admin | Customer | Seller

  /** The authenticated caller `{id, role}` that every service receives. */
  datatype Caller = Caller(id: string, role: Role)

  datatype OrderStatus = Pending | Confirmed | Processing | Shipped | Delivered | Cancelled

  datatype PaymentStatus = PaymentPending | Success | Failed | Refunded

  /** The error codes the services raise (`ApiError`). */
  datatype ErrorCode = ValidationError | NotFound | Forbidden | InsufficientStock

  datatype Result<T> = Ok(value: T) | Err(error: ErrorCode)

  /** A customer may only act on orders of their own; admins and sellers on
      any order. */
  predicate MayAccess(caller: Caller, ownerId: string)
  {
    caller.role != Customer || ownerId == caller.id
  }

  // ----- products -----

  datatype Product = Product(
    id: string, name: string, description: string, price: int, stock: int,
    isActive: bool, createdAt: int, updatedAt: int)

  /** The keys an update of a product may carry; None is an absent key. */
  datatype ProductPatch = ProductPatch(
    id: Option<string>, name: Option<string>, description: Option<string>,
    price: Option<int>, stock: Option<int>, isActive: Option<bool>)

  const NoProductChange := ProductPatch(None, None, None, None, None, None)

  /** `{ ...product, ...updates, updatedAt: now }` */
  function MergeProduct(p: Product, u: ProductPatch, now: int): Product
  {
    Product(
      if u.id.Some? then u.id.value else p.id,
      if u.name.Some? then u.name.value else p.name,
      if u.description.Some? then u.description.value else p.description,
      if u.price.Some? then u.price.value else p.price,
      if u.stock.Some? then u.stock.value else p.stock,
      if u.isActive.Some? then u.isActive.value else p.isActive,
      p.createdAt, now)
  }

  // ----- orders -----

  /** One line of an order, with the unit price frozen at purchase time. */
  datatype LineItem = LineItem(productId: string, quantity: int, priceAtPurchase: int)

  datatype Totals = Totals(subTotal: int, tax: int, discount: int, grandTotal: int)

  datatype Address = Address(line1: string, city: string, postalCode: string, country: string)

  datatype Order = Order(
    id: string, userId: string, items: seq<LineItem>, status: OrderStatus,
    totals: Totals, shippingAddress: Address, paymentId: Option<string>,
    createdAt: int, updatedAt: int)

  /** The keys an update of an order may carry; `paymentId` is itself
      nullable, so a present key holds an Option. */
  datatype OrderPatch = OrderPatch(
    id: Option<string>, userId: Option<string>, items: Option<seq<LineItem>>,
    status: Option<OrderStatus>, totals: Option<Totals>,
    shippingAddress: Option<Address>, paymentId: Option<Option<string>>)

  const NoOrderChange := OrderPatch(None, None, None, None, None, None, None)

  /** `{ ...order, ...updates, updatedAt: now }` */
  function MergeOrder(o: Order, u: OrderPatch, now: int): Order
  {
    Order(
      if u.id.Some? then u.id.value else o.id,
      if u.userId.Some? then u.userId.value else o.userId,
      if u.items.Some? then u.items.value else o.items,
      if u.status.Some? then u.status.value else o.status,
      if u.totals.Some? then u.totals.value else o.totals,
      if u.shippingAddress.Some? then u.shippingAddress.value else o.shippingAddress,
      if u.paymentId.Some? then u.paymentId.value else o.paymentId,
      o.createdAt, now)
  }

  // ----- payments -----

  datatype Payment = Payment(
    id: string, orderId: string, paymentMethod: string, amount: int,
    status: PaymentStatus, transactionRef: Option<string>,
    createdAt: int, updatedAt: int)

  datatype PaymentPatch = PaymentPatch(
    id: Option<string>, orderId: Option<string>, paymentMethod: Option<string>,
    amount: Option<int>, status: Option<PaymentStatus>,
    transactionRef: Option<Option<string>>)

  const NoPaymentChange := PaymentPatch(None, None, None, None, None, None)

  /** `{ ...payment, ...updates, updatedAt: now }` */
  function MergePayment(p: Payment, u: PaymentPatch, now: int): Payment
  {
    Payment(
      if u.id.Some? then u.id.value else p.id,
      if u.orderId.Some? then u.orderId.value else p.orderId,
      if u.paymentMethod.Some? then u.paymentMethod.value else p.paymentMethod,
      if u.amount.Some? then u.amount.value else p.amount,
      if u.status.Some? then u.status.value else p.status,
      if u.transactionRef.Some? then u.transactionRef.value else p.transactionRef,
      p.createdAt, now)
  }

  // ----- users -----

  datatype User = User(
    id: string, name: string, email: string, passwordHash: string,
    role: Role, createdAt: int)
}
