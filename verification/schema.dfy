/** The rows of the ten tables the actions read and write, and the store that holds them.
    Column names follow `app/lib/defitions.ts` and the column lists of the SQL statements. */
module Schema {

  import opened Wrappers

  /** A UUID primary or foreign key. */
  type Id = string

  /** An ISO-8601 timestamp as `new Date().toISOString()` prints it. */
  type Date = string

  /** The one role value the code compares against. */
  const ADMIN: string := "admin"

  datatype Group = Group(id: Id, businessName: string)

  /** `roles` is whatever string the schema accepted; the code only compares it with "admin". */
  datatype User = User(id: Id, groupId: Id, firstName: string, lastName: string,
                       email: string, password: string, roles: string)

  datatype Category = Category(id: Id, groupId: Id, categoryName: string)

  datatype Customer = Customer(id: Id, groupId: Id, firstName: string, lastName: string,
                               email: string, phoneNumber: int)

  /** A `customer_address` row; it carries no group id of its own. */
  datatype CustomerAddress = CustomerAddress(id: Id, customerId: Id, streetAddress: string,
                                             city: string, provience: string, postalCode: int)

  datatype Product = Product(id: Id, groupId: Id, productName: string, description: string,
                             category: string, status: string, sku: string, stock: int,
                             purchasePrice: int, sellingPrice: int)

  datatype Order = Order(id: Id, groupId: Id, customerId: Id, customerAddressId: Id,
                         subTotal: int, deliveryCharge: int, discountInPercentage: int, total: int)

  /** An `order_details` row: a line item, keyed by order id only. */
  datatype OrderDetail = OrderDetail(orderId: Id, productName: string, quantity: int, price: int)

  datatype TrackingStatus = OrderCreated | Processing | Shipped | Delivered

  /** The four timestamp columns of `order_tracking` an update may name. */
  datatype TrackingColumn = CreatedAt | ProcessedAt | ShippedAt | DeliveredAt

  datatype OrderTracking = OrderTracking(id: Id, groupId: Id, orderId: Id, customerId: Id,
                                         status: TrackingStatus, createdAt: Option<Date>,
                                         processedAt: Option<Date>, shippedAt: Option<Date>,
                                         deliveredAt: Option<Date>)

  /** A `payments` row, keyed by order id only. */
  datatype Payment = Payment(id: Id, orderId: Id, paymentMethod: string, paymentId: int,
                             status: string)

  datatype Store = Store(groups: seq<Group>, users: seq<User>, categories: seq<Category>,
                         products: seq<Product>, customers: seq<Customer>,
                         customerAddress: seq<CustomerAddress>, orders: seq<Order>,
                         orderDetails: seq<OrderDetail>, orderTracking: seq<OrderTracking>,
                         payments: seq<Payment>)

  /** The value of one timestamp column of a tracking row. */
  function Stamp(t: OrderTracking, column: TrackingColumn): Option<Date> {
    match column
    case CreatedAt => t.createdAt
    case ProcessedAt => t.processedAt
    case ShippedAt => t.shippedAt
    case DeliveredAt => t.deliveredAt
  }
}
