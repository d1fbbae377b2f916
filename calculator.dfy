/** The day calculation engine (src/lib/calculator.ts). */
module Calculator {
  import opened Wrappers
  import opened Types
  import Seqs

  /** `order.amount || 0`. With no NaN in the model a real amount is its own
      falsy-coercion, so this is the amount itself. */
  function AmountOf(o: Order): real {
    o.amount
  }

  /** `order.tips || 0`: a missing tip counts as 0. */
  function TipsOf(o: Order): real {
    o.tips.GetOr(0.0)
  }

  /** `orders.reduce((acc, o) => acc + (o.amount || 0), 0)`, accumulated left to right. */
  function AmountSum(os: seq<Order>): real {
    if os == [] then 0.0 else AmountSum(os[..|os| - 1]) + AmountOf(os[|os| - 1])
  }

  /** `orders.reduce((acc, o) => acc + (o.tips || 0), 0)`. */
  function TipsSum(os: seq<Order>): real {
    if os == [] then 0.0 else TipsSum(os[..|os| - 1]) + TipsOf(os[|os| - 1])
  }

  /** The orders paid by `p`, in their original order. */
  function OfPayment(os: seq<Order>, p: PaymentType): seq<Order> {
    Seqs.Filter(os, (o: Order) => o.paymentType == p)
  }

  /** The rent: a percentage of gross when the rent toggle is on and the
      percentage is positive, and 0 otherwise. */
  function RentAmount(gross: real, extras: DayExtras, settings: UserSettings): real {
    if settings.showRentPercent && extras.rentPercent > 0.0
    then PercentOf(gross, extras.rentPercent)
    else 0.0
  }

  /** `(amount * percent) / 100`. */
  function PercentOf(amount: real, percent: real): real {
    (amount * percent) / 100.0
  }

  /** `calculateDay`: the eight totals of a day, computed in the source's order. */
  function CalculateDay(orders: seq<Order>, extras: DayExtras, settings: UserSettings): (r: CalculationResult)
    ensures r.totalCash + r.totalCard == r.totalOrders
  {
    CashCardPartition(orders);
    var totalOrders := AmountSum(orders);
    var totalCash := AmountSum(OfPayment(orders, Cash));
    var totalCard := AmountSum(OfPayment(orders, Card));
    var totalTips := if settings.showTips && |orders| != 0 then TipsSum(orders) else 0.0;
    var gross := totalOrders + totalTips;
    var rentAmount := RentAmount(gross, extras, settings);
    var infoServiceCost := if settings.showInfoServiceCost then extras.infoServiceCost else 0.0;
    var medic := if settings.showMedicMechanic then extras.medicCost else 0.0;
    var mechanic := if settings.showMedicMechanic then extras.mechanicCost else 0.0;
    var extrasTotal :=
      infoServiceCost + medic + mechanic + extras.dailyExpenses
      + (if settings.includeRentInProfit then rentAmount else 0.0);
    var netProfit := gross - extrasTotal;
    CalculationResult(totalOrders, totalCash, totalCard, totalTips, gross, rentAmount, extrasTotal, netProfit)
  }

  lemma AmountSumSnoc(os: seq<Order>, o: Order)
    ensures AmountSum(os + [o]) == AmountSum(os) + o.amount
  {
    assert (os + [o])[..|os|] == os;
  }

  /** Summing amounts is additive over concatenation. */
  lemma {:induction false} AmountSumAppend(a: seq<Order>, b: seq<Order>)
    ensures AmountSum(a + b) == AmountSum(a) + AmountSum(b)
  {
    if b != [] {
      var init := b[..|b| - 1];
      assert a + b == (a + init) + [b[|b| - 1]];
      AmountSumAppend(a, init);
      AmountSumSnoc(a + init, b[|b| - 1]);
    } else {
      assert a + b == a;
    }
  }

  /** Summing tips is additive over concatenation. */
  lemma {:induction false} TipsSumAppend(a: seq<Order>, b: seq<Order>)
    ensures TipsSum(a + b) == TipsSum(a) + TipsSum(b)
  {
    if b != [] {
      var init := b[..|b| - 1];
      assert a + b == (a + init) + [b[|b| - 1]];
      assert (a + b)[..|a + b| - 1] == a + init;
      TipsSumAppend(a, init);
    } else {
      assert a + b == a;
    }
  }

  /** Every order is either cash or card, so the two filtered lists split the
      orders exactly: their amounts add up to the total and their lengths to
      the number of orders. */
  lemma {:induction false} CashCardPartition(os: seq<Order>)
    ensures AmountSum(OfPayment(os, Cash)) + AmountSum(OfPayment(os, Card)) == AmountSum(os)
    ensures |OfPayment(os, Cash)| + |OfPayment(os, Card)| == |os|
  {
    if os != [] {
      var init, last := os[..|os| - 1], os[|os| - 1];
      CashCardPartition(init);
      if last.paymentType == Cash {
        AmountSumSnoc(OfPayment(init, Cash), last);
      } else {
        AmountSumSnoc(OfPayment(init, Card), last);
      }
    }
  }

  /** An order whose tip is missing adds nothing to the tips, wherever it stands. */
  lemma MissingTipIgnored(a: seq<Order>, o: Order, b: seq<Order>)
    requires o.tips.None?
    ensures TipsSum(a + [o] + b) == TipsSum(a + b)
  {
    TipsSumAppend(a + [o], b);
    TipsSumAppend(a, [o]);
    TipsSumAppend(a, b);
  }

  /** Tips are 0 when tips are hidden or there are no orders, and the sum of
      the (defaulted) tips otherwise. */
  lemma TipsGating(orders: seq<Order>, extras: DayExtras, settings: UserSettings)
    ensures !settings.showTips ==> CalculateDay(orders, extras, settings).totalTips == 0.0
    ensures orders == [] ==> CalculateDay(orders, extras, settings).totalTips == 0.0
    ensures settings.showTips && orders != [] ==>
              CalculateDay(orders, extras, settings).totalTips == TipsSum(orders)
  {
  }

  /** Gross is the order total plus tips; net profit is gross minus the costs. */
  lemma Identities(orders: seq<Order>, extras: DayExtras, settings: UserSettings)
    ensures var r := CalculateDay(orders, extras, settings);
            r.gross == r.totalOrders + r.totalTips && r.netProfit == r.gross - r.extrasTotal
  {
  }

  /** Rent is 0 unless the rent toggle is on and the percentage is positive,
      and then it is that percentage of gross. */
  lemma RentGating(orders: seq<Order>, extras: DayExtras, settings: UserSettings)
    ensures var r := CalculateDay(orders, extras, settings);
            if settings.showRentPercent && extras.rentPercent > 0.0
            then r.rentAmount == PercentOf(r.gross, extras.rentPercent)
            else r.rentAmount == 0.0
  {
  }

  /** The costs always contain the daily expenses; the info service only under
      its toggle; medic and mechanic only under theirs; rent only if it is
      counted against profit. */
  lemma ExtrasTotalParts(orders: seq<Order>, extras: DayExtras, settings: UserSettings)
    ensures var r := CalculateDay(orders, extras, settings);
            r.extrasTotal ==
              extras.dailyExpenses
              + (if settings.showInfoServiceCost then extras.infoServiceCost else 0.0)
              + (if settings.showMedicMechanic then extras.medicCost + extras.mechanicCost else 0.0)
              + (if settings.includeRentInProfit then r.rentAmount else 0.0)
  {
  }

  /** Turning `includeRentInProfit` on raises the costs by exactly the rent and
      lowers net profit by exactly the rent; nothing else changes. */
  lemma IncludeRentDifference(orders: seq<Order>, extras: DayExtras, settings: UserSettings)
    ensures var on := CalculateDay(orders, extras, settings.(includeRentInProfit := true));
            var off := CalculateDay(orders, extras, settings.(includeRentInProfit := false));
            && on.rentAmount == off.rentAmount
            && on.extrasTotal == off.extrasTotal + off.rentAmount
            && on.netProfit == off.netProfit - off.rentAmount
            && on.gross == off.gross
  {
  }

  /** With no orders every revenue total is 0 and net profit is minus the costs. */
  lemma NoOrders(extras: DayExtras, settings: UserSettings)
    ensures var r := CalculateDay([], extras, settings);
            && r.totalOrders == 0.0 && r.totalCash == 0.0 && r.totalCard == 0.0
            && r.totalTips == 0.0 && r.gross == 0.0 && r.rentAmount == 0.0
            && r.netProfit == -r.extrasTotal
  {
  }

  /** A 500 cash fare with a 50 tip, a 300 card fare, 100 daily expenses and
      a 10 % rent counted against profit. */
  lemma TwoOrderDay()
    ensures var orders := [Order("a", 500.0, Cash, Some(50.0), None), Order("b", 300.0, Card, None, None)];
            var extras := DayExtras(100.0, 0.0, 10.0, 0.0, 0.0);
            var settings := UserSettings(false, true, false, true, false, true, Light, Cyan, 3.0, 300.0, 500.0, 1000.0);
            CalculateDay(orders, extras, settings)
              == CalculationResult(800.0, 500.0, 300.0, 50.0, 850.0, 85.0, 185.0, 665.0)
  {
    var orders := [Order("a", 500.0, Cash, Some(50.0), None), Order("b", 300.0, Card, None, None)];
    assert orders[..1] == [orders[0]];
    assert OfPayment(orders, Cash) == [orders[0]];
    assert OfPayment(orders, Card) == [orders[1]];
  }
}
