/** `app/lib/actions/orders/create.ts`: the order form schema, its validator, and the action
    that writes one order row, its line items and its tracking row. */
module OrderCreate {

  import opened Wrappers
  import opened Seqs
  import opened Text
  import opened Forms
  import opened Schema

  /** The fields of `CreateOrdersFormSchema` before parsing. The optional charges are already
      numbers: `None` is an absent field. */
  datatype OrderForm = OrderForm(product: seq<string>, quantity: seq<NumberField>,
                                 price: seq<NumberField>, subTotal: NumberField,
                                 deliveryCharge: Option<int>, discount: Option<int>,
                                 total: NumberField, customer: string)

  /** The parsed form, as `createOrder` receives it. */
  datatype OrderData = OrderData(product: seq<string>, quantity: seq<int>, price: seq<int>,
                                 subTotal: int, deliveryCharge: Option<int>,
                                 discount: Option<int>, total: int, customer: string)

  /** `.trim().toLowerCase()` of a product name. */
  function ProductName(raw: string): string {
    Lower(Trim(raw))
  }

  /** Every product name is non-empty once trimmed and lower-cased. */
  predicate ProductNamesPresent(product: seq<string>) {
    forall i :: 0 <= i < |product| ==> ProductName(product[i]) != []
  }

  /** One "product name required" per product whose normalised name is empty. */
  function ProductMessages(product: seq<string>): (m: seq<string>)
    ensures m == [] <==> ProductNamesPresent(product)
  {
    if product == [] then []
    else Check(ProductName(product[0]) == [], "product name required") + ProductMessages(product[1..])
  }

  /** One "required" per empty numeric array element. */
  function ElementMessages(fields: seq<NumberField>): (m: seq<string>)
    ensures m == [] <==> AllParsed(fields)
  {
    if fields == [] then []
    else NumberMessages(fields[0], "required") + ElementMessages(fields[1..])
  }

  function Values(fields: seq<NumberField>): (vs: seq<int>)
    requires AllParsed(fields)
    ensures |vs| == |fields|
    ensures forall i :: 0 <= i < |fields| ==> vs[i] == fields[i].value
  {
    seq(|fields|, i requires 0 <= i < |fields| => fields[i].value)
  }

  /** The flattened errors of `CreateOrdersFormSchema`: none exactly when every check passes. */
  function SchemaErrors(form: OrderForm): (errors: FieldErrors)
    ensures errors == [] <==>
              && ProductNamesPresent(form.product) && AllParsed(form.quantity) && AllParsed(form.price)
              && form.subTotal.Parsed? && form.total.Parsed? && Trim(form.customer) != []
    ensures Reported(errors)
    ensures !ProductNamesPresent(form.product) ==> errors[0].field == "product"
    ensures Trim(form.customer) == [] ==> FieldError("customer", ["select a customer"]) in errors
  {
    var product := Field("product", ProductMessages(form.product));
    var quantity := Field("quantity", ElementMessages(form.quantity));
    var price := Field("price", ElementMessages(form.price));
    var subTotal := Field("subTotal", NumberMessages(form.subTotal, "reqired"));
    var total := Field("total", NumberMessages(form.total, "required"));
    var customer := Field("customer", MinLength(Trim(form.customer), 1, "select a customer"));
    ReportedAppend(product, quantity);
    ReportedAppend(product + quantity, price);
    ReportedAppend(product + quantity + price, subTotal);
    ReportedAppend(product + quantity + price + subTotal, total);
    ReportedAppend(product + quantity + price + subTotal + total, customer);
    product + quantity + price + subTotal + total + customer
  }

  /** The parsed form: names normalised, numbers read, customer id trimmed. */
  function Parse(form: OrderForm): (data: OrderData)
    requires SchemaErrors(form) == []
    ensures |data.product| == |form.product|
    ensures forall i :: 0 <= i < |form.product| ==>
              data.product[i] == Lower(Trim(form.product[i])) && data.product[i] != []
    ensures |data.quantity| == |form.quantity|
    ensures forall i :: 0 <= i < |form.quantity| ==> data.quantity[i] == form.quantity[i].value
    ensures |data.price| == |form.price|
    ensures forall i :: 0 <= i < |form.price| ==> data.price[i] == form.price[i].value
    ensures data.subTotal == form.subTotal.value && data.total == form.total.value
    ensures data.deliveryCharge == form.deliveryCharge && data.discount == form.discount
    ensures data.customer == Trim(form.customer) && data.customer != []
  {
    OrderData(seq(|form.product|, i requires 0 <= i < |form.product| => ProductName(form.product[i])),
              Values(form.quantity), Values(form.price), form.subTotal.value,
              form.deliveryCharge, form.discount, form.total.value, Trim(form.customer))
  }

  /** `validate`: the schema check alone; no table is read or written. */
  function Validate(form: OrderForm): (r: Validation<OrderData>)
    ensures r.Valid? <==> SchemaErrors(form) == []
    ensures r.Valid? ==> r.data == Parse(form)
    ensures r.Invalid? ==> r.errors == SchemaErrors(form) && WellFormed(r.errors)
  {
    var errors := SchemaErrors(form);
    if errors == [] then Valid(Parse(form)) else Invalid(errors)
  }

  function Min(a: int, b: int): int { if a <= b then a else b }

  /** The `customer_address` row `createOrder` reads: the first with that customer id, from
      any group. */
  function AddressOf(addresses: seq<CustomerAddress>, customerId: Id): Option<CustomerAddress> {
    First(addresses, (a: CustomerAddress) => a.customerId == customerId)
  }

  /** The line items the insert loop writes. postgres.js refuses an `undefined` parameter, so the
      loop stops with an exception at the first index past the end of `quantity` or `price`. */
  function LineItems(orderId: Id, product: seq<string>, quantity: seq<int>, price: seq<int>)
    : (items: seq<OrderDetail>)
    ensures |items| == Min(|product|, Min(|quantity|, |price|))
    ensures forall i :: 0 <= i < |items| ==>
              items[i] == OrderDetail(orderId, product[i], quantity[i], price[i])
  {
    if product == [] || quantity == [] || price == [] then []
    else [OrderDetail(orderId, product[0], quantity[0], price[0])]
         + LineItems(orderId, product[1..], quantity[1..], price[1..])
  }

  /** Every product has a quantity and a price, so the loop runs to its end. */
  predicate Complete(data: OrderData) {
    |data.quantity| >= |data.product| && |data.price| >= |data.product|
  }

  /** `createOrder`, with the generated order and tracking ids and the insert time as
      parameters. A customer without an address makes `customer_address.id` throw inside the
      `try`, before any write; an incomplete line-item loop throws after the order row and the
      items written so far, before the tracking row. */
  function CreateOrder(data: OrderData, groupId: Id, s: Store, orderId: Id, trackingId: Id,
                       date: Date): (r: Store)
    ensures AddressOf(s.customerAddress, data.customer).None? ==> r == s
    ensures AddressOf(s.customerAddress, data.customer).Some? ==>
              r.orders == s.orders + [Order(orderId, groupId, data.customer,
                                            AddressOf(s.customerAddress, data.customer).value.id,
                                            data.subTotal, data.deliveryCharge.GetOr(0),
                                            data.discount.GetOr(0), data.total)]
    ensures AddressOf(s.customerAddress, data.customer).Some? ==>
              && |r.orderDetails| == |s.orderDetails| + Min(|data.product|, Min(|data.quantity|, |data.price|))
              && r.orderDetails[..|s.orderDetails|] == s.orderDetails
              && forall i :: |s.orderDetails| <= i < |r.orderDetails| ==>
                   var k := i - |s.orderDetails|;
                   r.orderDetails[i] == OrderDetail(orderId, data.product[k], data.quantity[k], data.price[k])
    ensures AddressOf(s.customerAddress, data.customer).Some? && Complete(data) ==>
              r.orderTracking == s.orderTracking + [OrderTracking(trackingId, groupId, orderId,
                                                                  data.customer, OrderCreated,
                                                                  Some(date), None, None, None)]
    ensures !Complete(data) ==> r.orderTracking == s.orderTracking
    ensures r.(orders := s.orders, orderDetails := s.orderDetails, orderTracking := s.orderTracking) == s
  {
    match AddressOf(s.customerAddress, data.customer)
    case None => s
    case Some(address) =>
      var order := Order(orderId, groupId, data.customer, address.id, data.subTotal,
                         data.deliveryCharge.GetOr(0), data.discount.GetOr(0), data.total);
      var items := LineItems(orderId, data.product, data.quantity, data.price);
      var tracking := if Complete(data)
                      then [OrderTracking(trackingId, groupId, orderId, data.customer, OrderCreated,
                                          Some(date), None, None, None)]
                      else [];
      s.(orders := s.orders + [order], orderDetails := s.orderDetails + items,
         orderTracking := s.orderTracking + tracking)
  }

  /** With every quantity and price present, exactly one line item per product is written. */
  lemma CompleteOrderWritesOneItemPerProduct(data: OrderData, groupId: Id, s: Store, orderId: Id,
                                             trackingId: Id, date: Date)
    requires AddressOf(s.customerAddress, data.customer).Some?
    requires Complete(data)
    ensures var r := CreateOrder(data, groupId, s, orderId, trackingId, date);
            && |r.orders| == |s.orders| + 1
            && |r.orderDetails| == |s.orderDetails| + |data.product|
            && |r.orderTracking| == |s.orderTracking| + 1
  {
  }

  /** The address lookup ignores groups: a customer of another group still gets an order,
      filed under the caller's group. */
  lemma ForeignCustomerIsAccepted(data: OrderData, groupId: Id, s: Store, c: Customer,
                                  a: CustomerAddress, orderId: Id, trackingId: Id, date: Date)
    requires c in s.customers && c.groupId != groupId && data.customer == c.id
    requires a in s.customerAddress && a.customerId == c.id
    ensures var r := CreateOrder(data, groupId, s, orderId, trackingId, date);
            |r.orders| == |s.orders| + 1 && r.orders[|s.orders|].groupId == groupId
  {
  }

  /** The validator does not compare the lengths of the arrays: a form with fewer quantities
      than products passes it, and the action will then stop after the last quantity. */
  lemma MismatchedArraysPassValidation(form: OrderForm)
    requires ProductNamesPresent(form.product) && AllParsed(form.quantity) && AllParsed(form.price)
    requires form.subTotal.Parsed? && form.total.Parsed? && Trim(form.customer) != []
    requires |form.quantity| < |form.product|
    ensures Validate(form).Valid? && !Complete(Validate(form).data)
  {
  }
}
