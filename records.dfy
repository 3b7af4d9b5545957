/** The dashboard's three entities and the shapes the data layer builds them
    from: the draft passed to add (the record without id and createdAt), the
    partial record passed to update (each present field overwrites, as the
    object spread { ...record, ...updates } does) and the seed collections. */
module Records {
  import opened Seqs

  datatype User = User(id: int, name: string, email: string, role: string,
                       status: string, createdAt: string)

  datatype Product = Product(id: int, name: string, description: string, price: int,
                             category: string, stock: int, status: string, createdAt: string)

  datatype OrderItem = OrderItem(productId: int, productName: string, quantity: int, price: int)

  datatype Order = Order(id: int, orderNumber: string, customerName: string,
                         customerEmail: string, items: seq<OrderItem>, totalAmount: int,
                         status: string, paymentStatus: string, shippingAddress: string,
                         createdAt: string)

  function UserId(u: User): int { u.id }
  function ProductId(p: Product): int { p.id }
  function OrderId(o: Order): int { o.id }

  function UserCreatedAt(u: User): string { u.createdAt }
  function OrderCreatedAt(o: Order): string { o.createdAt }

  /** Omit<User, 'id' | 'createdAt'>. */
  datatype UserDraft = UserDraft(name: string, email: string, role: string, status: string)

  datatype ProductDraft = ProductDraft(name: string, description: string, price: int,
                                       category: string, stock: int, status: string)

  datatype OrderDraft = OrderDraft(orderNumber: string, customerName: string,
                                   customerEmail: string, items: seq<OrderItem>,
                                   totalAmount: int, status: string, paymentStatus: string,
                                   shippingAddress: string)

  /** { ...draft, id, createdAt }. */
  function NewUser(d: UserDraft, id: int, createdAt: string): (u: User)
    ensures u.id == id && u.createdAt == createdAt
    ensures u.name == d.name && u.email == d.email && u.role == d.role && u.status == d.status
  {
    User(id, d.name, d.email, d.role, d.status, createdAt)
  }

  function NewProduct(d: ProductDraft, id: int, createdAt: string): (p: Product)
    ensures p.id == id && p.createdAt == createdAt
    ensures p.name == d.name && p.description == d.description && p.price == d.price
    ensures p.category == d.category && p.stock == d.stock && p.status == d.status
  {
    Product(id, d.name, d.description, d.price, d.category, d.stock, d.status, createdAt)
  }

  function NewOrder(d: OrderDraft, id: int, createdAt: string): (o: Order)
    ensures o.id == id && o.createdAt == createdAt
    ensures o.orderNumber == d.orderNumber && o.customerName == d.customerName
    ensures o.customerEmail == d.customerEmail && o.items == d.items
    ensures o.totalAmount == d.totalAmount && o.status == d.status
    ensures o.paymentStatus == d.paymentStatus && o.shippingAddress == d.shippingAddress
  {
    Order(id, d.orderNumber, d.customerName, d.customerEmail, d.items, d.totalAmount,
          d.status, d.paymentStatus, d.shippingAddress, createdAt)
  }

  /** The value of a field after a spread: the update's value when it has the key. */
  function Override<T>(update: Option<T>, current: T): (r: T)
    ensures update.Some? ==> r == update.value
    ensures update.None? ==> r == current
  {
    match update
    case Some(v) => v
    case None => current
  }

  /** Partial<User>: None marks a key the update object does not have. */
  datatype UserPatch = UserPatch(id: Option<int>, name: Option<string>, email: Option<string>,
                                 role: Option<string>, status: Option<string>,
                                 createdAt: Option<string>)

  datatype ProductPatch = ProductPatch(id: Option<int>, name: Option<string>,
                                       description: Option<string>, price: Option<int>,
                                       category: Option<string>, stock: Option<int>,
                                       status: Option<string>, createdAt: Option<string>)

  datatype OrderPatch = OrderPatch(id: Option<int>, orderNumber: Option<string>,
                                   customerName: Option<string>, customerEmail: Option<string>,
                                   items: Option<seq<OrderItem>>, totalAmount: Option<int>,
                                   status: Option<string>, paymentStatus: Option<string>,
                                   shippingAddress: Option<string>, createdAt: Option<string>)

  const EmptyUserPatch := UserPatch(None, None, None, None, None, None)
  const EmptyProductPatch := ProductPatch(None, None, None, None, None, None, None, None)
  const EmptyOrderPatch := OrderPatch(None, None, None, None, None, None, None, None, None, None)

  /** { ...u, ...p }: the shallow merge of an update into a user. */
  function MergeUser(u: User, p: UserPatch): (r: User)
    ensures p.id.None? ==> r.id == u.id
    ensures p.id.Some? ==> r.id == p.id.value
    ensures r.name == Override(p.name, u.name) && r.email == Override(p.email, u.email)
    ensures r.role == Override(p.role, u.role) && r.status == Override(p.status, u.status)
    ensures r.createdAt == Override(p.createdAt, u.createdAt)
    ensures p == EmptyUserPatch ==> r == u
  {
    User(Override(p.id, u.id), Override(p.name, u.name), Override(p.email, u.email),
         Override(p.role, u.role), Override(p.status, u.status), Override(p.createdAt, u.createdAt))
  }

  function MergeProduct(x: Product, p: ProductPatch): (r: Product)
    ensures p.id.None? ==> r.id == x.id
    ensures p.id.Some? ==> r.id == p.id.value
    ensures r.name == Override(p.name, x.name) && r.description == Override(p.description, x.description)
    ensures r.price == Override(p.price, x.price) && r.category == Override(p.category, x.category)
    ensures r.stock == Override(p.stock, x.stock) && r.status == Override(p.status, x.status)
    ensures r.createdAt == Override(p.createdAt, x.createdAt)
    ensures p == EmptyProductPatch ==> r == x
  {
    Product(Override(p.id, x.id), Override(p.name, x.name), Override(p.description, x.description),
            Override(p.price, x.price), Override(p.category, x.category),
            Override(p.stock, x.stock), Override(p.status, x.status),
            Override(p.createdAt, x.createdAt))
  }

  function MergeOrder(o: Order, p: OrderPatch): (r: Order)
    ensures p.id.None? ==> r.id == o.id
    ensures p.id.Some? ==> r.id == p.id.value
    ensures r.orderNumber == Override(p.orderNumber, o.orderNumber)
    ensures r.customerName == Override(p.customerName, o.customerName)
    ensures r.customerEmail == Override(p.customerEmail, o.customerEmail)
    ensures r.items == Override(p.items, o.items) && r.totalAmount == Override(p.totalAmount, o.totalAmount)
    ensures r.status == Override(p.status, o.status)
    ensures r.paymentStatus == Override(p.paymentStatus, o.paymentStatus)
    ensures r.shippingAddress == Override(p.shippingAddress, o.shippingAddress)
    ensures r.createdAt == Override(p.createdAt, o.createdAt)
    ensures p == EmptyOrderPatch ==> r == o
  {
    Order(Override(p.id, o.id), Override(p.orderNumber, o.orderNumber),
          Override(p.customerName, o.customerName), Override(p.customerEmail, o.customerEmail),
          Override(p.items, o.items), Override(p.totalAmount, o.totalAmount),
          Override(p.status, o.status), Override(p.paymentStatus, o.paymentStatus),
          Override(p.shippingAddress, o.shippingAddress), Override(p.createdAt, o.createdAt))
  }

  /** Applying the same update twice is applying it once: a spread only
      overwrites, so a second pass finds every supplied field already set. */
  lemma MergeIdempotent(u: User, x: Product, o: Order, pu: UserPatch, px: ProductPatch, po: OrderPatch)
    ensures MergeUser(MergeUser(u, pu), pu) == MergeUser(u, pu)
    ensures MergeProduct(MergeProduct(x, px), px) == MergeProduct(x, px)
    ensures MergeOrder(MergeOrder(o, po), po) == MergeOrder(o, po)
  {
  }

  /** The built-in sample users served when nothing is stored. */
  function InitialUsers(): seq<User>
  {
    [ User(1, "Mohammad", "mohammad@example.com", "admin", "active", "2024-01-15"),
      User(2, "Yusuf", "yusuf@example.com", "user", "active", "2024-01-16"),
      User(3, "Bilal", "bilal@example.com", "user", "inactive", "2024-01-17"),
      User(4, "Sarah", "sarah@example.com", "manager", "active", "2024-01-18"),
      User(5, "Ahmed", "ahmed@example.com", "user", "active", "2024-01-19") ]
  }

  function InitialProducts(): seq<Product>
  {
    [ Product(1, "iPhone 15 Pro", "Latest iPhone with advanced camera system", 999,
              "electronics", 50, "active", "2024-01-15"),
      Product(2, "MacBook Air M2", "Ultra-thin laptop with M2 chip", 1199,
              "electronics", 25, "active", "2024-01-16"),
      Product(3, "Nike Air Max", "Comfortable running shoes", 120,
              "clothing", 100, "active", "2024-01-17"),
      Product(4, "Coffee Maker", "Automatic drip coffee maker", 89,
              "home", 0, "inactive", "2024-01-18"),
      Product(5, "Wireless Headphones", "Noise-cancelling wireless headphones", 199,
              "electronics", 75, "active", "2024-01-19") ]
  }

  function InitialOrders(): seq<Order>
  {
    [ Order(1, "ORD-2024-001", "Mohammad Ali", "mohammad@example.com",
            [OrderItem(1, "iPhone 15 Pro", 1, 999), OrderItem(5, "Wireless Headphones", 1, 199)],
            1198, "delivered", "paid", "123 Main St, New York, NY 10001", "2024-01-15"),
      Order(2, "ORD-2024-002", "Yusuf Ahmed", "yusuf@example.com",
            [OrderItem(2, "MacBook Air M2", 1, 1199)],
            1199, "processing", "paid", "456 Oak Ave, Los Angeles, CA 90001", "2024-01-16"),
      Order(3, "ORD-2024-003", "Bilal Khan", "bilal@example.com",
            [OrderItem(3, "Nike Air Max", 2, 120)],
            240, "shipped", "paid", "789 Pine Rd, Chicago, IL 60601", "2024-01-17"),
      Order(4, "ORD-2024-004", "Sarah Johnson", "sarah@example.com",
            [OrderItem(4, "Coffee Maker", 1, 89)],
            89, "pending", "unpaid", "321 Elm St, Houston, TX 77001", "2024-01-18"),
      Order(5, "ORD-2024-005", "Ahmed Hassan", "ahmed@example.com",
            [OrderItem(5, "Wireless Headphones", 3, 199)],
            597, "cancelled", "refunded", "654 Maple Dr, Miami, FL 33101", "2024-01-19") ]
  }
}
