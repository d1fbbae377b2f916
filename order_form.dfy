/** The order entry form (src/components/OrderForm.tsx). */
module OrderForm {
  import opened Wrappers
  import opened Types

  /** The form's values. */
  datatype FormValues = FormValues(amount: InputNumber, paymentType: PaymentType, tips: InputNumber, time: string)

  /** The initial (and reset) values. */
  const InitialValues := FormValues(Num(0.0), Cash, Num(0.0), "")

  /** The error shown for an invalid amount ("enter the order amount"). */
  const AmountError := "Введите сумму заказа"

  /** The amount validator `value && value > 0 ? null : error`. */
  function ValidateAmount(value: InputNumber): (r: Option<string>)
    ensures r.None? <==> value.Num? && value.v > 0.0
    ensures r.Some? ==> r.value == AmountError
  {
    match value
    case Num(v) => if v != 0.0 && v > 0.0 then None else Some(AmountError)
    case NaN => Some(AmountError)
    case Blank => Some(AmountError)
  }

  /** The order `handleSubmit` builds; `id` stands for the generated `nanoid(10)`. */
  function BuildOrder(id: string, values: FormValues, showTips: bool, showOrderTime: bool): (o: Order)
    ensures o.id == id
    ensures o.amount == NumberOrZero(values.amount)
    ensures o.paymentType == values.paymentType
    ensures !showTips ==> o.tips == Some(0.0)
    ensures showTips ==> o.tips == Some(if values.tips.Num? then values.tips.v else 0.0)
    ensures showOrderTime <==> o.time.Some?
    ensures showOrderTime ==> o.time.value == values.time
  {
    Order(
      id,
      NumberOrZero(values.amount),
      values.paymentType,
      Some(if showTips then NumberOrZero(values.tips) else 0.0),
      if showOrderTime then Some(values.time) else None)
  }

  /** An order built from values that passed validation has exactly the
      entered, positive amount. */
  lemma ValidatedOrderAmount(id: string, values: FormValues, showTips: bool, showOrderTime: bool)
    requires ValidateAmount(values.amount).None?
    ensures BuildOrder(id, values, showTips, showOrderTime).amount == values.amount.v > 0.0
  {
  }

  /** The form's state. */
  class OrderFormState {
    var values: FormValues

    constructor ()
      ensures values == InitialValues
    {
      values := InitialValues;
    }

    /** Editing a field of the form. */
    method Edit(next: FormValues)
      modifies this
      ensures values == next
    {
      values := next;
    }

    /** Submitting: when the amount is invalid nothing is added and the values
        stay; otherwise the built order is handed on (`onAdd`) and the form is reset. */
    method Submit(id: string, showTips: bool, showOrderTime: bool) returns (added: Option<Order>)
      modifies this
      ensures added.None? <==> ValidateAmount(old(values).amount).Some?
      ensures added.None? ==> values == old(values)
      ensures added.Some? ==> added.value == BuildOrder(id, old(values), showTips, showOrderTime)
      ensures added.Some? ==> values == InitialValues
    {
      if ValidateAmount(values.amount).Some? {
        return None;
      }
      added := Some(BuildOrder(id, values, showTips, showOrderTime));
      values := InitialValues;
    }
  }
}
