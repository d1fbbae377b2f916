/** The data model of the calculator (src/types.ts). Money is an exact `real`. */
module Types {
  import opened Wrappers

  /** How an order was paid: exactly one of two values. */
  datatype PaymentType = Cash | Card

  /** One fare. `tips` and `time` are optional; `amount` and `paymentType` are required. */
  datatype Order = Order(
    id: string,
    amount: real,
    paymentType: PaymentType,
    tips: Option<real>,
    time: Option<string>)

  /** The day's cost inputs. */
  datatype DayExtras = DayExtras(
    dailyExpenses: real,
    infoServiceCost: real,
    rentPercent: real,
    medicCost: real,
    mechanicCost: real)

  /** The eight derived totals of a day. */
  datatype CalculationResult = CalculationResult(
    totalOrders: real,
    totalCash: real,
    totalCard: real,
    totalTips: real,
    gross: real,
    rentAmount: real,
    extrasTotal: real,
    netProfit: real)

  datatype ColorScheme = Light | Dark
  datatype AccentColor = Cyan | Teal | Green | Blue

  /** The toggles, display preferences and default tariffs. */
  datatype UserSettings = UserSettings(
    showOrderTime: bool,
    showTips: bool,
    showInfoServiceCost: bool,
    showRentPercent: bool,
    showMedicMechanic: bool,
    includeRentInProfit: bool,
    colorScheme: ColorScheme,
    accentColor: AccentColor,
    defaultRentPercent: real,
    defaultInfoServiceCost: real,
    defaultMedicCost: real,
    defaultMechanicCost: real)

  /** A saved day: the `DayExtras` fields flattened in beside the identity,
      the orders, the totals, the optional notes and the creation time (ms). */
  datatype DayRecord = DayRecord(
    id: string,
    date: string,
    orders: seq<Order>,
    totals: CalculationResult,
    notes: Option<string>,
    createdAt: int,
    dailyExpenses: real,
    infoServiceCost: real,
    rentPercent: real,
    medicCost: real,
    mechanicCost: real)
  {
    /** The extras snapshot carried by the record. */
    function Extras(): DayExtras {
      DayExtras(dailyExpenses, infoServiceCost, rentPercent, medicCost, mechanicCost)
    }
  }

  /** A raw numeric input as a form widget delivers it: a number, the number
      `NaN`, or the empty input (`''` or `undefined`). */
  datatype InputNumber = Num(v: real) | NaN | Blank

  /** JavaScript `Number(x) || 0`: a number is kept (a zero stays zero), every
      falsy or non-numeric input becomes 0. */
  function NumberOrZero(x: InputNumber): (r: real)
    ensures x.Num? ==> r == x.v
    ensures !x.Num? ==> r == 0.0
  {
    match x
    case Num(v) => if v == 0.0 then 0.0 else v
    case NaN => 0.0
    case Blank => 0.0
  }
}
