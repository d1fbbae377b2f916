/** The working-day session of the calculator page (src/pages/CalculatorPage.tsx). */
module Session {
  import opened Wrappers
  import opened Types
  import Seqs
  import Calculator
  import SettingsStore
  import ExtrasForm

  /** `initialExtras`: a 3 % rent and every other cost 0. */
  const InitialExtras := DayExtras(0.0, 0.0, 3.0, 0.0, 0.0)

  /** `settings || defaultSettings`. */
  function EffectiveSettings(settings: Option<UserSettings>): (r: UserSettings)
    ensures settings.None? ==> r == SettingsStore.DefaultSettings
    ensures settings.Some? ==> r == settings.value
  {
    settings.GetOr(SettingsStore.DefaultSettings)
  }

  /** The orders whose id is not `id`, in their original order. */
  function WithoutOrder(orders: seq<Order>, id: string): seq<Order> {
    Seqs.Filter(orders, (o: Order) => o.id != id)
  }

  /** Removal deletes every order with that id, keeps every other order, and
      keeps their order (it distributes over concatenation). */
  lemma WithoutOrderExact(a: seq<Order>, b: seq<Order>, id: string)
    ensures forall o :: o in WithoutOrder(a, id) <==> o in a && o.id != id
    ensures WithoutOrder(a + b, id) == WithoutOrder(a, id) + WithoutOrder(b, id)
    ensures (forall i :: 0 <= i < |a| ==> a[i].id != id) ==> WithoutOrder(a, id) == a
  {
    Seqs.FilterAppend(a, b, (o: Order) => o.id != id);
    if forall i :: 0 <= i < |a| ==> a[i].id != id {
      Seqs.FilterKeepsAll(a, (o: Order) => o.id != id);
    }
  }

  /** The record a save builds: `id` is the date, a dash and a random suffix;
      the extras are spread into the record. */
  function MakeRecord(date: string, suffix: string, orders: seq<Order>, notes: string,
                      totals: CalculationResult, createdAt: int, extras: DayExtras): (r: DayRecord)
    ensures |r.id| > |date| && r.id[..|date| + 1] == date + "-"
    ensures r.date == date && r.orders == orders && r.notes == Some(notes)
    ensures r.totals == totals && r.createdAt == createdAt && r.Extras() == extras
  {
    DayRecord(
      id := date + "-" + suffix,
      date := date,
      orders := orders,
      totals := totals,
      notes := Some(notes),
      createdAt := createdAt,
      dailyExpenses := extras.dailyExpenses,
      infoServiceCost := extras.infoServiceCost,
      rentPercent := extras.rentPercent,
      medicCost := extras.medicCost,
      mechanicCost := extras.mechanicCost)
  }

  /** The page's state for the day being worked. */
  class WorkingDay {
    const date: string
    var orders: seq<Order>
    var extras: DayExtras
    var notes: string

    /** A fresh page for `date` (the formatted current day). */
    constructor (date: string)
      ensures this.date == date && orders == [] && extras == InitialExtras && notes == ""
    {
      this.date := date;
      orders := [];
      extras := InitialExtras;
      notes := "";
    }

    /** The `totals` memo. */
    function Totals(settings: Option<UserSettings>): (r: CalculationResult)
      reads this
      ensures r == Calculator.CalculateDay(orders, extras, EffectiveSettings(settings))
      ensures settings.None? ==> r == Calculator.CalculateDay(orders, extras, SettingsStore.DefaultSettings)
      ensures r.totalCash + r.totalCard == r.totalOrders
    {
      Calculator.CalculateDay(orders, extras, EffectiveSettings(settings))
    }

    /** `handleAddOrder`: append at the end. */
    method AddOrder(order: Order)
      modifies this`orders
      ensures orders == old(orders) + [order]
    {
      orders := orders + [order];
    }

    /** `handleRemoveOrder`: drop the orders with that id. */
    method RemoveOrder(id: string)
      modifies this`orders
      ensures orders == WithoutOrder(old(orders), id)
    {
      orders := WithoutOrder(orders, id);
    }

    /** `handleClear`: no orders, the initial extras, no notes. */
    method Clear()
      modifies this`orders, this`extras, this`notes
      ensures orders == [] && extras == InitialExtras && notes == ""
    {
      orders := [];
      extras := InitialExtras;
      notes := "";
    }

    /** The extras form's `onChange`, fed by `handleChange(key, value)`. */
    method ChangeExtra(key: ExtrasForm.ExtrasKey, value: InputNumber)
      modifies this`extras
      ensures extras == ExtrasForm.HandleChange(old(extras), key, value)
    {
      extras := ExtrasForm.HandleChange(extras, key, value);
    }

    /** The notes field's `onNotesChange`. */
    method SetNotes(value: string)
      modifies this`notes
      ensures notes == value
    {
      notes := value;
    }

    /** `handleSaveDay`: refused without orders; otherwise the record to hand
        to storage. `suffix` stands for the random id part and `now` for
        `Date.now()`. The session itself is never changed by saving. */
    method SaveDay(settings: Option<UserSettings>, suffix: string, now: int) returns (record: Option<DayRecord>)
      ensures record.None? <==> orders == []
      ensures record.Some? ==>
                && record.value.totals == Calculator.CalculateDay(orders, extras, EffectiveSettings(settings))
                && record.value.id == date + "-" + suffix
                && record.value.date == date
                && record.value.orders == orders
                && record.value.notes == Some(notes)
                && record.value.createdAt == now
                && record.value.Extras() == extras
    {
      if |orders| == 0 {
        return None;
      }
      record := Some(MakeRecord(date, suffix, orders, notes, Totals(settings), now, extras));
    }
  }
}
