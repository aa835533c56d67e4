/** `app/lib/actions/orders/update.ts`: the payment form of an order and its update. */
module OrderUpdate {

  import opened Wrappers
  import opened Seqs
  import opened Text
  import opened Forms
  import opened Schema

  /** The fields of `EditOrdersFormSchema` before parsing. */
  datatype EditOrderForm = EditOrderForm(paymentId: NumberField, status: string,
                                         paymentMethod: string)

  /** The parsed form `updateOrder` receives. */
  datatype EditOrderData = EditOrderData(paymentId: int, status: string, paymentMethod: string)

  /** The flattened errors of `EditOrdersFormSchema`, in schema order. */
  function SchemaErrors(form: EditOrderForm): (errors: FieldErrors)
    ensures errors == [] <==>
              form.paymentId.Parsed? && Trim(form.status) != [] && Trim(form.paymentMethod) != []
    ensures Reported(errors)
    ensures form.paymentId.Empty? ==> errors[0] == FieldError("paymentId", ["reqired"])
    ensures Trim(form.status) == [] ==> FieldError("status", ["select a status"]) in errors
    ensures Trim(form.paymentMethod) == [] ==>
              errors[|errors| - 1] == FieldError("paymentMethod", ["select a payment method"])
  {
    var paymentId := Field("paymentId", NumberMessages(form.paymentId, "reqired"));
    var status := Field("status", MinLength(Trim(form.status), 1, "select a status"));
    var paymentMethod := Field("paymentMethod",
                               MinLength(Trim(form.paymentMethod), 1, "select a payment method"));
    ReportedAppend(paymentId, status);
    ReportedAppend(paymentId + status, paymentMethod);
    paymentId + status + paymentMethod
  }

  /** `validate`: the schema check alone. */
  function Validate(form: EditOrderForm): (r: Validation<EditOrderData>)
    ensures r.Valid? <==> SchemaErrors(form) == []
    ensures r.Valid? ==> r.data == EditOrderData(form.paymentId.value, Trim(form.status),
                                                 Trim(form.paymentMethod))
    ensures r.Valid? ==> r.data.status != [] && r.data.paymentMethod != []
    ensures r.Invalid? ==> r.errors == SchemaErrors(form) && WellFormed(r.errors)
  {
    var errors := SchemaErrors(form);
    if errors == [] then Valid(EditOrderData(form.paymentId.value, Trim(form.status),
                                             Trim(form.paymentMethod)))
    else Invalid(errors)
  }

  /** The new values of a payment row; its id and order stay. */
  function Repay(p: Payment, data: EditOrderData): (q: Payment)
    ensures q.id == p.id && q.orderId == p.orderId
    ensures q.paymentMethod == data.paymentMethod && q.paymentId == data.paymentId
            && q.status == data.status
  {
    p.(paymentMethod := data.paymentMethod, paymentId := data.paymentId, status := data.status)
  }

  /** `updateOrder`: every payment of the order is rewritten. The statement names no group,
      so the caller's group plays no part. */
  function UpdateOrder(s: Store, data: EditOrderData, orderId: Id): (r: Store)
    ensures |r.payments| == |s.payments|
    ensures forall i :: 0 <= i < |s.payments| && s.payments[i].orderId == orderId ==>
              r.payments[i] == Repay(s.payments[i], data)
    ensures forall i :: 0 <= i < |s.payments| && s.payments[i].orderId != orderId ==>
              r.payments[i] == s.payments[i]
    ensures r.(payments := s.payments) == s
  {
    s.(payments := UpdateWhere(s.payments, (p: Payment) => p.orderId == orderId,
                               (p: Payment) => Repay(p, data)))
  }

  /** Saving the same form twice is saving it once. */
  lemma UpdateOrderIdempotent(s: Store, data: EditOrderData, orderId: Id)
    ensures UpdateOrder(UpdateOrder(s, data, orderId), data, orderId) == UpdateOrder(s, data, orderId)
  {
    var once := UpdateOrder(s, data, orderId);
    var twice := UpdateOrder(once, data, orderId);
    assert twice.payments == once.payments;
  }

  /** After the update, every payment of the order carries the submitted values. */
  lemma UpdateOrderReachesEveryPayment(s: Store, data: EditOrderData, orderId: Id)
    ensures forall p :: p in UpdateOrder(s, data, orderId).payments && p.orderId == orderId ==>
              p.paymentMethod == data.paymentMethod && p.paymentId == data.paymentId
              && p.status == data.status
  {
    var r := UpdateOrder(s, data, orderId);
    forall p | p in r.payments && p.orderId == orderId
      ensures p.paymentMethod == data.paymentMethod && p.paymentId == data.paymentId
              && p.status == data.status
    {
      var i :| 0 <= i < |r.payments| && r.payments[i] == p;
    }
  }
}
