/** The records kept in the three object stores. */
module Records {

  /** An account; `email` is the key of the `users` store. The application
      stores the password in clear text. `createdAt` is the ISO time
      string supplied by the caller. */
  datatype User = User(name: string, email: string, password: string, createdAt: string)

  /** A row of the `cart` store. `id` is the key the store generated; the
      product name, image and unit price are copied from the catalog when the
      row is added. */
  datatype CartItem = CartItem(
    id: int,
    userEmail: string,
    productId: int,
    productName: string,
    productImage: string,
    size: string,
    quantity: int,
    price: int,
    addedAt: string)

  /** The shipping form of the checkout page. */
  datatype Address = Address(name: string, phone: string, address: string, city: string, pincode: string)

  /** The three radio buttons of the payment page ('card', 'upi', 'netbanking'). */
  datatype PaymentMethod = Card | Upi | NetBanking

  /** A row of the `orders` store: `id` is the generated key, `orderId` the
      display identifier, `items` a copy of the cart lines at purchase time.
      `orderDate` is the purchase time in milliseconds since the epoch. */
  datatype Order = Order(
    id: int,
    orderId: string,
    userEmail: string,
    items: seq<CartItem>,
    shippingAddress: Address,
    subtotal: int,
    tax: real,
    total: int,
    paymentMethod: PaymentMethod,
    orderDate: int,
    status: string)

  /** The status every order is created with; nothing ever changes it. */
  const Confirmed: string := "confirmed"

  /** The value of the `userEmail` index of each store that has one. */
  function CartOwner(c: CartItem): string { c.userEmail }
  function OrderOwner(o: Order): string { o.userEmail }

  /** The inline primary key (`keyPath: 'id'`) of the auto-increment stores. */
  function CartKey(c: CartItem): int { c.id }
  function OrderKey(o: Order): int { o.id }
}
