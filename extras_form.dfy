/** The day's extras form (src/components/DailyExtrasForm.tsx). */
module ExtrasForm {
  import opened Types

  /** The keys of `DayExtras`. */
  datatype ExtrasKey = DailyExpenses | InfoServiceCost | RentPercent | MedicCost | MechanicCost

  /** `extras[key]`. */
  function Get(e: DayExtras, key: ExtrasKey): real {
    match key
    case DailyExpenses => e.dailyExpenses
    case InfoServiceCost => e.infoServiceCost
    case RentPercent => e.rentPercent
    case MedicCost => e.medicCost
    case MechanicCost => e.mechanicCost
  }

  /** `handleChange(key, value)`: `{ ...extras, [key]: Number(value) || 0 }`.
      Only `key` changes; a number is stored as given, anything else as 0. */
  function HandleChange(extras: DayExtras, key: ExtrasKey, value: InputNumber): (r: DayExtras)
    ensures value.Num? ==> Get(r, key) == value.v
    ensures !value.Num? ==> Get(r, key) == 0.0
    ensures forall k :: k != key ==> Get(r, k) == Get(extras, k)
  {
    var x := NumberOrZero(value);
    match key
    case DailyExpenses => extras.(dailyExpenses := x)
    case InfoServiceCost => extras.(infoServiceCost := x)
    case RentPercent => extras.(rentPercent := x)
    case MedicCost => extras.(medicCost := x)
    case MechanicCost => extras.(mechanicCost := x)
  }

  /** Setting a key to the value already stored changes nothing. */
  lemma HandleChangeUnchanged(extras: DayExtras, key: ExtrasKey)
    ensures HandleChange(extras, key, Num(Get(extras, key))) == extras
  {
  }

  /** Edits of two different keys do not interfere: either order gives the same extras. */
  lemma HandleChangeCommutes(extras: DayExtras, k1: ExtrasKey, v1: InputNumber, k2: ExtrasKey, v2: InputNumber)
    requires k1 != k2
    ensures HandleChange(HandleChange(extras, k1, v1), k2, v2) == HandleChange(HandleChange(extras, k2, v2), k1, v1)
  {
  }
}
