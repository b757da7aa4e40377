/**
 * The admin dashboard: month bucketing into fixed-size charts, the category,
 * gender, stock, revenue and age summaries, and the four reports with their
 * read-through caching.
 */
module Dashboard {
  import opened Wrappers
  import opened Js
  import opened KeyValueCache
  import opened Documents
  import opened Users
  import opened Errors
  import opened Features

  // ===========================================================================
  // Month bucketing

  /**
   * `(today.getMonth() - created.getMonth() + 12) % 12`. The dividend is
   * always positive, so JavaScript's truncating `%` agrees with Dafny's.
   * Only the months are compared: a record from the same month a year ago
   * looks like one from this month.
   */
  function MonthDiff(today: Month, created: Month): (d: int)
    ensures 0 <= d < 12
    ensures (created + d) % 12 == today
    ensures d == 0 <==> created == today
  {
    (today - created + 12) % 12
  }

  /**
   * Where a record created in month `created` lands in a chart of `width`
   * slots whose last slot is today's month: slot `width - 1 - monthDiff`
   * when `monthDiff < width`, otherwise nowhere.
   */
  function Slot(today: Month, created: Month, width: nat): (r: Option<nat>)
    ensures r.Some? <==> MonthDiff(today, created) < width
    ensures r.Some? ==> r.value < width && (created + (width - 1 - r.value)) % 12 == today
  {
    var monthDiff := MonthDiff(today, created);
    if monthDiff < width then Some(width - 1 - monthDiff) else None
  }

  /** Same-month records land in the last slot; records `width` or more months back are dropped. */
  lemma SlotPlacement(today: Month, created: Month, width: nat)
    ensures width >= 1 && created == today ==> Slot(today, created, width) == Some(width - 1)
    ensures MonthDiff(today, created) >= width ==> Slot(today, created, width).None?
    ensures Slot(today, created, width).Some? ==> Slot(today, created, width).value < width
    ensures width >= 12 ==> Slot(today, created, width).Some?
  {
  }

  /** In a six-slot chart a record five months back lands in slot 0, one six months back is dropped. */
  lemma SixSlotEdges(today: Month)
    ensures Slot(today, (today + 7) % 12, 6) == Some(0)
    ensures Slot(today, (today + 6) % 12, 6).None?
  {
  }

  function Sum(xs: seq<int>): int
  {
    if xs == [] then 0 else Sum(xs[..|xs| - 1]) + xs[|xs| - 1]
  }

  // --- counting records by creation month -----------------------------------

  /** How many of the records created in `months` land in `slot`. */
  function CountInSlot(today: Month, months: seq<Month>, width: nat, slot: nat): nat
  {
    if months == [] then 0
    else
      var last := if Slot(today, months[|months| - 1], width) == Some(slot) then 1 else 0;
      CountInSlot(today, months[..|months| - 1], width, slot) + last
  }

  /** How many of the records are kept at all (month difference below `width`). */
  function KeptCount(today: Month, months: seq<Month>, width: nat): nat
  {
    if months == [] then 0
    else
      var last := if Slot(today, months[|months| - 1], width).Some? then 1 else 0;
      KeptCount(today, months[..|months| - 1], width) + last
  }

  /** The expected chart: one count per slot. */
  function Counts(today: Month, months: seq<Month>, width: nat): (r: seq<int>)
    ensures |r| == width
  {
    seq(width, s requires 0 <= s < width => CountInSlot(today, months, width, s))
  }

  /** The forEach over records that increments `counts[width - 1 - monthDiff]`. */
  method CountByMonth(today: Month, months: seq<Month>, width: nat) returns (counts: array<int>)
    ensures fresh(counts)
    ensures counts[..] == Counts(today, months, width)
  {
    counts := new int[width](_ => 0);
    var i := 0;
    while i < |months|
      invariant 0 <= i <= |months|
      invariant counts.Length == width
      invariant forall s :: 0 <= s < width ==> counts[s] == CountInSlot(today, months[..i], width, s)
    {
      CountInSlotStep(today, months, i, width);
      var monthDiff := MonthDiff(today, months[i]);
      if monthDiff < width {
        counts[width - 1 - monthDiff] := counts[width - 1 - monthDiff] + 1;
      }
      i := i + 1;
    }
    assert months[..i] == months;
  }

  lemma CountInSlotStep(today: Month, months: seq<Month>, i: nat, width: nat)
    requires i < |months|
    ensures forall s: nat ::
      CountInSlot(today, months[..i + 1], width, s)
        == CountInSlot(today, months[..i], width, s) + (if Slot(today, months[i], width) == Some(s) then 1 else 0)
  {
    assert months[..i + 1][..i] == months[..i];
  }

  function SlotCountsBelow(today: Month, months: seq<Month>, width: nat, n: nat): int
  {
    if n == 0 then 0 else SlotCountsBelow(today, months, width, n - 1) + CountInSlot(today, months, width, n - 1)
  }

  lemma {:induction false} SumOfCountsPrefix(today: Month, months: seq<Month>, width: nat, n: nat)
    requires n <= width
    ensures Sum(Counts(today, months, width)[..n]) == SlotCountsBelow(today, months, width, n)
  {
    if n > 0 {
      assert Counts(today, months, width)[..n][..n - 1] == Counts(today, months, width)[..n - 1];
      SumOfCountsPrefix(today, months, width, n - 1);
    }
  }

  lemma {:induction false} SlotCountsBelowAppend(today: Month, months: seq<Month>, m: Month, width: nat, n: nat)
    ensures SlotCountsBelow(today, months + [m], width, n)
      == SlotCountsBelow(today, months, width, n)
        + (if Slot(today, m, width).Some? && Slot(today, m, width).value < n then 1 else 0)
  {
    assert (months + [m])[..|months|] == months;
    if n > 0 {
      SlotCountsBelowAppend(today, months, m, width, n - 1);
    }
  }

  lemma {:induction false} SlotCountsBelowNone(today: Month, width: nat, n: nat)
    ensures SlotCountsBelow(today, [], width, n) == 0
  {
    if n > 0 {
      SlotCountsBelowNone(today, width, n - 1);
    }
  }

  lemma {:induction false} SlotCountsBelowAll(today: Month, months: seq<Month>, width: nat)
    ensures SlotCountsBelow(today, months, width, width) == KeptCount(today, months, width)
  {
    if months == [] {
      SlotCountsBelowNone(today, width, width);
    } else {
      var init, m := months[..|months| - 1], months[|months| - 1];
      assert months == init + [m];
      SlotCountsBelowAll(today, init, width);
      SlotCountsBelowAppend(today, init, m, width, width);
      SlotPlacement(today, m, width);
    }
  }

  /** The slot counts add up to the number of records kept: no record is counted twice. */
  lemma CountsAddUp(today: Month, months: seq<Month>, width: nat)
    ensures Sum(Counts(today, months, width)) == KeptCount(today, months, width)
  {
    SumOfCountsPrefix(today, months, width, width);
    assert Counts(today, months, width)[..width] == Counts(today, months, width);
    SlotCountsBelowAll(today, months, width);
  }

  /** At most every record is kept; with twelve slots every record is. */
  lemma {:induction false} KeptCountBounds(today: Month, months: seq<Month>, width: nat)
    ensures KeptCount(today, months, width) <= |months|
    ensures width >= 12 ==> KeptCount(today, months, width) == |months|
  {
    if months != [] {
      KeptCountBounds(today, months[..|months| - 1], width);
    }
  }

  // --- summing amounts by creation month ------------------------------------

  /** A record's creation month and the amount it contributes. */
  datatype Dated = Dated(month: Month, amount: int)

  function Months(recs: seq<Dated>): (ms: seq<Month>)
    ensures |ms| == |recs|
    ensures forall i :: 0 <= i < |recs| ==> ms[i] == recs[i].month
  {
    seq(|recs|, i requires 0 <= i < |recs| => recs[i].month)
  }

  /** The records that land in `slot`, in input order. */
  function InSlot(today: Month, recs: seq<Dated>, width: nat, slot: nat): seq<Dated>
  {
    if recs == [] then []
    else
      var last := if Slot(today, recs[|recs| - 1].month, width) == Some(slot) then [recs[|recs| - 1]] else [];
      InSlot(today, recs[..|recs| - 1], width, slot) + last
  }

  /** The records kept in some slot, in input order. */
  function Kept(today: Month, recs: seq<Dated>, width: nat): seq<Dated>
  {
    if recs == [] then []
    else
      var last := if Slot(today, recs[|recs| - 1].month, width).Some? then [recs[|recs| - 1]] else [];
      Kept(today, recs[..|recs| - 1], width) + last
  }

  function TotalOf(recs: seq<Dated>): int
  {
    if recs == [] then 0 else TotalOf(recs[..|recs| - 1]) + recs[|recs| - 1].amount
  }

  /** The summed amount of the records that land in `slot`. */
  function TotalInSlot(today: Month, recs: seq<Dated>, width: nat, slot: nat): int
  {
    if recs == [] then 0
    else
      var last := if Slot(today, recs[|recs| - 1].month, width) == Some(slot) then recs[|recs| - 1].amount else 0;
      TotalInSlot(today, recs[..|recs| - 1], width, slot) + last
  }

  /** The expected chart: per slot, the total of the records in it. */
  function Totals(today: Month, recs: seq<Dated>, width: nat): (r: seq<int>)
    ensures |r| == width
  {
    seq(width, s requires 0 <= s < width => TotalInSlot(today, recs, width, s))
  }

  lemma TotalOfAppend(recs: seq<Dated>, more: seq<Dated>)
    ensures TotalOf(recs + more) == TotalOf(recs) + TotalOf(more)
    decreases |more|
  {
    if more == [] {
      assert recs + more == recs;
    } else {
      assert (recs + more)[..|recs + more| - 1] == recs + more[..|more| - 1];
      TotalOfAppend(recs, more[..|more| - 1]);
    }
  }

  lemma TotalInSlotStep(today: Month, recs: seq<Dated>, i: nat, width: nat)
    requires i < |recs|
    ensures forall s: nat ::
      TotalInSlot(today, recs[..i + 1], width, s)
        == TotalInSlot(today, recs[..i], width, s) + (if Slot(today, recs[i].month, width) == Some(s) then recs[i].amount else 0)
  {
    assert recs[..i + 1][..i] == recs[..i];
  }

  /** The forEach over records that adds each amount to `totals[width - 1 - monthDiff]`. */
  method TotalByMonth(today: Month, recs: seq<Dated>, width: nat) returns (totals: array<int>)
    ensures fresh(totals)
    ensures totals[..] == Totals(today, recs, width)
  {
    totals := new int[width](_ => 0);
    var i := 0;
    while i < |recs|
      invariant 0 <= i <= |recs|
      invariant totals.Length == width
      invariant forall s :: 0 <= s < width ==> totals[s] == TotalInSlot(today, recs[..i], width, s)
    {
      TotalInSlotStep(today, recs, i, width);
      var monthDiff := MonthDiff(today, recs[i].month);
      if monthDiff < width {
        totals[width - 1 - monthDiff] := totals[width - 1 - monthDiff] + recs[i].amount;
      }
      i := i + 1;
    }
    assert recs[..i] == recs;
  }

  /**
   * The six-month order chart of the stats report: one pass that counts each
   * kept order and adds its total into the same slot.
   */
  method CountAndTotalByMonth(today: Month, recs: seq<Dated>, width: nat) returns (counts: array<int>, totals: array<int>)
    ensures fresh(counts) && fresh(totals)
    ensures counts[..] == Counts(today, Months(recs), width)
    ensures totals[..] == Totals(today, recs, width)
  {
    ghost var months := Months(recs);
    counts := new int[width](_ => 0);
    totals := new int[width](_ => 0);
    var i := 0;
    while i < |recs|
      invariant 0 <= i <= |recs|
      invariant counts.Length == width && totals.Length == width
      invariant forall s :: 0 <= s < width ==> counts[s] == CountInSlot(today, months[..i], width, s)
      invariant forall s :: 0 <= s < width ==> totals[s] == TotalInSlot(today, recs[..i], width, s)
    {
      CountInSlotStep(today, months, i, width);
      TotalInSlotStep(today, recs, i, width);
      var monthDiff := MonthDiff(today, recs[i].month);
      if monthDiff < width {
        counts[width - 1 - monthDiff] := counts[width - 1 - monthDiff] + 1;
        totals[width - 1 - monthDiff] := totals[width - 1 - monthDiff] + recs[i].amount;
      }
      i := i + 1;
    }
    assert recs[..i] == recs;
    assert months[..i] == months;
  }

  /**
   * `chart.order[s]` and `chart.revenue[s]` describe the same orders: the
   * count is the number of orders in the slot and the revenue their summed
   * totals.
   */
  lemma {:induction false} CountsMatchSlotMembers(today: Month, recs: seq<Dated>, width: nat, slot: nat)
    ensures CountInSlot(today, Months(recs), width, slot) == |InSlot(today, recs, width, slot)|
    ensures TotalInSlot(today, recs, width, slot) == TotalOf(InSlot(today, recs, width, slot))
  {
    if recs != [] {
      var init, r := recs[..|recs| - 1], recs[|recs| - 1];
      assert Months(recs)[..|recs| - 1] == Months(init);
      CountsMatchSlotMembers(today, init, width, slot);
      TotalOfAppend(InSlot(today, init, width, slot), if Slot(today, r.month, width) == Some(slot) then [r] else []);
    }
  }

  function SlotTotalsBelow(today: Month, recs: seq<Dated>, width: nat, n: nat): int
  {
    if n == 0 then 0 else SlotTotalsBelow(today, recs, width, n - 1) + TotalInSlot(today, recs, width, n - 1)
  }

  lemma {:induction false} SumOfTotalsPrefix(today: Month, recs: seq<Dated>, width: nat, n: nat)
    requires n <= width
    ensures Sum(Totals(today, recs, width)[..n]) == SlotTotalsBelow(today, recs, width, n)
  {
    if n > 0 {
      assert Totals(today, recs, width)[..n][..n - 1] == Totals(today, recs, width)[..n - 1];
      SumOfTotalsPrefix(today, recs, width, n - 1);
    }
  }

  lemma {:induction false} SlotTotalsBelowAppend(today: Month, recs: seq<Dated>, r: Dated, width: nat, n: nat)
    ensures SlotTotalsBelow(today, recs + [r], width, n)
      == SlotTotalsBelow(today, recs, width, n)
        + (if Slot(today, r.month, width).Some? && Slot(today, r.month, width).value < n then r.amount else 0)
  {
    assert (recs + [r])[..|recs|] == recs;
    if n > 0 {
      SlotTotalsBelowAppend(today, recs, r, width, n - 1);
    }
  }

  lemma {:induction false} SlotTotalsBelowNone(today: Month, width: nat, n: nat)
    ensures SlotTotalsBelow(today, [], width, n) == 0
  {
    if n > 0 {
      SlotTotalsBelowNone(today, width, n - 1);
    }
  }

  lemma {:induction false} SlotTotalsBelowAll(today: Month, recs: seq<Dated>, width: nat)
    ensures SlotTotalsBelow(today, recs, width, width) == TotalOf(Kept(today, recs, width))
  {
    if recs == [] {
      SlotTotalsBelowNone(today, width, width);
    } else {
      var init, r := recs[..|recs| - 1], recs[|recs| - 1];
      assert recs == init + [r];
      SlotTotalsBelowAll(today, init, width);
      SlotTotalsBelowAppend(today, init, r, width, width);
      SlotPlacement(today, r.month, width);
      TotalOfAppend(Kept(today, init, width), if Slot(today, r.month, width).Some? then [r] else []);
    }
  }

  /** The slot totals add up to the total of the records kept. */
  lemma TotalsAddUp(today: Month, recs: seq<Dated>, width: nat)
    ensures Sum(Totals(today, recs, width)) == TotalOf(Kept(today, recs, width))
  {
    SumOfTotalsPrefix(today, recs, width, width);
    assert Totals(today, recs, width)[..width] == Totals(today, recs, width);
    SlotTotalsBelowAll(today, recs, width);
  }

  /** With twelve slots nothing is dropped. */
  lemma {:induction false} TwelveSlotsKeepAll(today: Month, recs: seq<Dated>)
    ensures Kept(today, recs, 12) == recs
  {
    if recs != [] {
      TwelveSlotsKeepAll(today, recs[..|recs| - 1]);
      assert recs == recs[..|recs| - 1] + [recs[|recs| - 1]];
    }
  }

  // ===========================================================================
  // Summaries

  /** One entry of the category breakdown: the category and its share of all products in percent (None for NaN, when there are no products). */
  datatype CategoryShare = CategoryShare(category: string, percent: Option<int>)

  /** `Math.round(count / productCount * 100)`. */
  function ShareOf(count: int, productCount: int): (r: Option<int>)
    ensures r.None? <==> productCount == 0
  {
    if productCount == 0 then None else Some(RoundedPercent(count, productCount))
  }

  /** The expected breakdown: each category paired with its share, in category order. */
  function SharesOf(categories: seq<string>, counts: seq<int>, productCount: int): (shares: seq<CategoryShare>)
    requires |counts| == |categories|
    ensures |shares| == |categories|
    ensures forall i :: 0 <= i < |categories| ==> shares[i] == CategoryShare(categories[i], ShareOf(counts[i], productCount))
  {
    seq(|categories|, i requires 0 <= i < |categories| => CategoryShare(categories[i], ShareOf(counts[i], productCount)))
  }

  /** The forEach that pushes one `{ [category]: percent }` entry per category. */
  method CategoryShares(categories: seq<string>, counts: seq<int>, productCount: int) returns (shares: seq<CategoryShare>)
    requires |counts| == |categories|
    ensures shares == SharesOf(categories, counts, productCount)
  {
    shares := [];
    var i := 0;
    while i < |categories|
      invariant 0 <= i <= |categories|
      invariant shares == SharesOf(categories, counts, productCount)[..i]
    {
      shares := shares + [CategoryShare(categories[i], ShareOf(counts[i], productCount))];
      i := i + 1;
    }
  }

  /** A category holding some of the products gets a share between 0 and 100; one holding all of them gets 100. */
  lemma ShareBounds(count: int, productCount: int)
    requires 0 <= count <= productCount && productCount > 0
    ensures ShareOf(count, productCount).Some?
    ensures 0 <= ShareOf(count, productCount).value <= 100
    ensures count == productCount ==> ShareOf(count, productCount) == Some(100)
  {
    PercentageOrdering(count, productCount);
  }

  datatype GenderRatio = GenderRatio(male: int, female: int)

  /** `genderRatio`: the male count, and everyone else as female. */
  function GenderRatioOf(maleUsers: nat, userCount: nat): GenderRatio
  {
    GenderRatio(maleUsers, userCount - maleUsers)
  }

  function CountGender(genders: seq<Gender>, g: Gender): nat
  {
    if genders == [] then 0
    else CountGender(genders[..|genders| - 1], g) + (if genders[|genders| - 1] == g then 1 else 0)
  }

  /** When the counts come from the user list, the female entry counts exactly the female users and the two add up to all users. */
  lemma {:induction false} GenderRatioPartitions(genders: seq<Gender>)
    ensures GenderRatioOf(CountGender(genders, Male), |genders|).female == CountGender(genders, Female)
    ensures CountGender(genders, Male) + CountGender(genders, Female) == |genders|
  {
    if genders != [] {
      GenderRatioPartitions(genders[..|genders| - 1]);
    }
  }

  datatype StockAvailability = StockAvailability(inStock: int, outOfStock: int)

  /** `stockAvailable`: products with positive stock, and all the others. */
  function StockAvailabilityOf(productCount: nat, productInStock: nat): StockAvailability
  {
    StockAvailability(productInStock, productCount - productInStock)
  }

  /** Products whose stock is positive (`stock: { $gt: 0 }`). */
  function CountInStock(stocks: seq<int>): nat
  {
    if stocks == [] then 0 else CountInStock(stocks[..|stocks| - 1]) + (if stocks[|stocks| - 1] > 0 then 1 else 0)
  }

  /** Products whose stock is zero or negative. */
  function CountOutOfStock(stocks: seq<int>): nat
  {
    if stocks == [] then 0 else CountOutOfStock(stocks[..|stocks| - 1]) + (if stocks[|stocks| - 1] <= 0 then 1 else 0)
  }

  /** Out of stock counts exactly the products with zero or negative stock; the two add up to all products. */
  lemma {:induction false} StockPartitions(stocks: seq<int>)
    ensures StockAvailabilityOf(|stocks|, CountInStock(stocks)).outOfStock == CountOutOfStock(stocks)
    ensures CountInStock(stocks) + CountOutOfStock(stocks) == |stocks|
  {
    if stocks != [] {
      StockPartitions(stocks[..|stocks| - 1]);
    }
  }

  /** The money fields of an order as selected for the pie chart; any may be missing. */
  datatype Charges = Charges(total: JsNumber, discount: JsNumber, tax: JsNumber, shippingCharge: JsNumber)

  /** `xs.reduce((t, x) => t + (x || 0), 0)`. */
  function SumMoney(xs: seq<JsNumber>): (r: int)
    ensures (forall i :: 0 <= i < |xs| ==> xs[i].None?) ==> r == 0
    ensures (forall i :: 0 <= i < |xs| ==> OrZero(xs[i]) >= 0) ==> r >= 0
  {
    if xs == [] then 0 else SumMoney(xs[..|xs| - 1]) + OrZero(xs[|xs| - 1])
  }

  function OrderTotals(orders: seq<Charges>): seq<JsNumber>
  {
    seq(|orders|, i requires 0 <= i < |orders| => orders[i].total)
  }

  function Discounts(orders: seq<Charges>): seq<JsNumber>
  {
    seq(|orders|, i requires 0 <= i < |orders| => orders[i].discount)
  }

  function Taxes(orders: seq<Charges>): seq<JsNumber>
  {
    seq(|orders|, i requires 0 <= i < |orders| => orders[i].tax)
  }

  function ShippingCharges(orders: seq<Charges>): seq<JsNumber>
  {
    seq(|orders|, i requires 0 <= i < |orders| => orders[i].shippingCharge)
  }

  datatype RevenueDistribution = RevenueDistribution(totalRevenue: int, totalDiscount: int, totalTax: int, totalShipping: int, netmargin: int)

  /** `revenueDistribution`: the four sums and the net margin left after discount, tax and shipping. */
  function DistributionOf(orders: seq<Charges>): RevenueDistribution
  {
    var totalRevenue := SumMoney(OrderTotals(orders));
    var totalDiscount := SumMoney(Discounts(orders));
    var totalTax := SumMoney(Taxes(orders));
    var totalShipping := SumMoney(ShippingCharges(orders));
    RevenueDistribution(totalRevenue, totalDiscount, totalTax, totalShipping,
      totalRevenue - totalDiscount - totalTax - totalShipping)
  }

  /** What one order leaves after its discount, tax and shipping, missing fields counting 0. */
  function NetOf(c: Charges): int
  {
    OrZero(c.total) - OrZero(c.discount) - OrZero(c.tax) - OrZero(c.shippingCharge)
  }

  function NetTotal(orders: seq<Charges>): int
  {
    if orders == [] then 0 else NetTotal(orders[..|orders| - 1]) + NetOf(orders[|orders| - 1])
  }

  /** The net margin is the sum of every order's own net amount. */
  lemma {:induction false} NetMarginIsPerOrderNet(orders: seq<Charges>)
    ensures DistributionOf(orders).netmargin == NetTotal(orders)
  {
    if orders != [] {
      var init := orders[..|orders| - 1];
      assert OrderTotals(orders)[..|orders| - 1] == OrderTotals(init);
      assert Discounts(orders)[..|orders| - 1] == Discounts(init);
      assert Taxes(orders)[..|orders| - 1] == Taxes(init);
      assert ShippingCharges(orders)[..|orders| - 1] == ShippingCharges(init);
      NetMarginIsPerOrderNet(init);
    }
  }

  /** The three age filters of the pie chart. */
  datatype AgeBand = Teen | Adult | Older

  predicate InBand(age: int, band: AgeBand)
  {
    match band
    case Teen => age < 20
    case Adult => age >= 20 && age < 40
    case Older => age >= 40
  }

  function CountBand(dobs: seq<Date>, today: Date, band: AgeBand): nat
  {
    if dobs == [] then 0
    else CountBand(dobs[..|dobs| - 1], today, band) + (if InBand(Age(dobs[|dobs| - 1], today), band) then 1 else 0)
  }

  datatype AgeGroups = AgeGroups(teen: nat, adult: nat, older: nat)

  function AgeGroupsOf(dobs: seq<Date>, today: Date): AgeGroups
  {
    AgeGroups(CountBand(dobs, today, Teen), CountBand(dobs, today, Adult), CountBand(dobs, today, Older))
  }

  /** Every user falls in exactly one age group, so the groups add up to all users. */
  lemma {:induction false} AgeGroupsPartition(dobs: seq<Date>, today: Date)
    ensures var g := AgeGroupsOf(dobs, today); g.teen + g.adult + g.older == |dobs|
  {
    if dobs != [] {
      AgeGroupsPartition(dobs[..|dobs| - 1], today);
    }
  }

  datatype OrderStatusCounts = OrderStatusCounts(processing: nat, shipped: nat, delivered: nat)

  function CountStatus(statuses: seq<Status>, st: Status): nat
  {
    if statuses == [] then 0
    else CountStatus(statuses[..|statuses| - 1], st) + (if statuses[|statuses| - 1] == st then 1 else 0)
  }

  /** The status chart leaves out only the Cancelled orders. */
  lemma {:induction false} StatusCountsMissOnlyCancelled(statuses: seq<Status>)
    ensures CountStatus(statuses, Processing) + CountStatus(statuses, Shipped) + CountStatus(statuses, Delivered)
      == |statuses| - CountStatus(statuses, Cancelled)
  {
    if statuses != [] {
      StatusCountsMissOnlyCancelled(statuses[..|statuses| - 1]);
    }
  }

  datatype UserRoles = UserRoles(customer: nat, admin: nat)

  /** An order in the latest-transactions list, as selected. */
  datatype TransactionRow = TransactionRow(id: string, total: int, discount: Option<int>, status: Status, orderItems: seq<OrderItem>)

  /** A latest transaction as reported: `quantity` is the number of lines, not of units. */
  datatype Transaction = Transaction(id: string, total: int, discount: Option<int>, status: Status, quantity: nat)

  function TransactionsOf(rows: seq<TransactionRow>): (r: seq<Transaction>)
    ensures |r| == |rows|
    ensures forall i :: 0 <= i < |rows| ==> r[i].id == rows[i].id && r[i].quantity == |rows[i].orderItems|
  {
    seq(|rows|, i requires 0 <= i < |rows| =>
      Transaction(rows[i].id, rows[i].total, rows[i].discount, rows[i].status, |rows[i].orderItems|))
  }

  /** A total with this month's and last month's values and the percentage between them. */
  datatype Change = Change(total: int, thisMonth: int, lastMonth: int, change: int)

  function ChangeOf(total: int, thisMonth: int, lastMonth: int): (r: Change)
    ensures r.total == total && r.thisMonth == thisMonth && r.lastMonth == lastMonth
    ensures lastMonth == 0 ==> r.change == 100 * thisMonth
  {
    Change(total, thisMonth, lastMonth, CalculatePercentage(thisMonth, lastMonth))
  }

  // ===========================================================================
  // The four reports

  /** The query results the stats report is built from. */
  datatype StatsInput = StatsInput(
    today: Month,
    thisMonthProducts: nat,
    lastMonthProducts: nat,
    thisMonthUsers: nat,
    lastMonthUsers: nat,
    thisMonthOrders: seq<JsNumber>,
    lastMonthOrders: seq<JsNumber>,
    productCount: nat,
    userCount: nat,
    allOrders: seq<JsNumber>,
    lastSixMonthsOrders: seq<Dated>,
    categories: seq<string>,
    categoriesCount: seq<int>,
    maleUsersCount: nat,
    latestTransactions: seq<TransactionRow>)

  datatype StatsReport = StatsReport(
    categoryCount: seq<CategoryShare>,
    genderRatio: GenderRatio,
    latestTransactions: seq<Transaction>,
    revenue: Change,
    users: Change,
    orders: Change,
    products: Change,
    chartOrder: seq<int>,
    chartRevenue: seq<int>)

  predicate StatsInputValid(input: StatsInput)
  {
    |input.categoriesCount| == |input.categories|
  }

  /** The stats report computed from its query results. */
  function StatsOf(input: StatsInput): StatsReport
    requires StatsInputValid(input)
  {
    var thisMonthRevenue := SumMoney(input.thisMonthOrders);
    var lastMonthRevenue := SumMoney(input.lastMonthOrders);
    StatsReport(
      SharesOf(input.categories, input.categoriesCount, input.productCount),
      GenderRatioOf(input.maleUsersCount, input.userCount),
      TransactionsOf(input.latestTransactions),
      ChangeOf(SumMoney(input.allOrders), thisMonthRevenue, lastMonthRevenue),
      ChangeOf(input.userCount, input.thisMonthUsers, input.lastMonthUsers),
      ChangeOf(|input.allOrders|, |input.thisMonthOrders|, |input.lastMonthOrders|),
      ChangeOf(input.productCount, input.thisMonthProducts, input.lastMonthProducts),
      Counts(input.today, Months(input.lastSixMonthsOrders), 6),
      Totals(input.today, input.lastSixMonthsOrders, 6))
  }

  method ComputeStats(input: StatsInput) returns (report: StatsReport)
    requires StatsInputValid(input)
    ensures report == StatsOf(input)
  {
    var orderMonthsCount, orderMonthsRevenue := CountAndTotalByMonth(input.today, input.lastSixMonthsOrders, 6);
    var categoryCount := CategoryShares(input.categories, input.categoriesCount, input.productCount);
    var thisMonthRevenue := SumMoney(input.thisMonthOrders);
    var lastMonthRevenue := SumMoney(input.lastMonthOrders);
    report := StatsReport(
      categoryCount,
      GenderRatioOf(input.maleUsersCount, input.userCount),
      TransactionsOf(input.latestTransactions),
      ChangeOf(SumMoney(input.allOrders), thisMonthRevenue, lastMonthRevenue),
      ChangeOf(input.userCount, input.thisMonthUsers, input.lastMonthUsers),
      ChangeOf(|input.allOrders|, |input.thisMonthOrders|, |input.lastMonthOrders|),
      ChangeOf(input.productCount, input.thisMonthProducts, input.lastMonthProducts),
      orderMonthsCount[..],
      orderMonthsRevenue[..]);
  }

  /**
   * The six-month chart of the stats report has six slots, counts at most
   * the orders fetched, and its revenue adds up to the totals of the orders
   * it counts.
   */
  lemma StatsChartAccounts(input: StatsInput)
    requires StatsInputValid(input)
    ensures |StatsOf(input).chartOrder| == 6 && |StatsOf(input).chartRevenue| == 6
    ensures Sum(StatsOf(input).chartOrder) <= |input.lastSixMonthsOrders|
    ensures Sum(StatsOf(input).chartRevenue) == TotalOf(Kept(input.today, input.lastSixMonthsOrders, 6))
  {
    CountsAddUp(input.today, Months(input.lastSixMonthsOrders), 6);
    KeptCountBounds(input.today, Months(input.lastSixMonthsOrders), 6);
    TotalsAddUp(input.today, input.lastSixMonthsOrders, 6);
  }

  /** The query results the pie-chart report is built from. */
  datatype PieInput = PieInput(
    today: Date,
    processingOrders: nat,
    shippedOrders: nat,
    deliveredOrders: nat,
    categories: seq<string>,
    categoriesCount: seq<int>,
    productCount: nat,
    productInStock: nat,
    allOrders: seq<Charges>,
    userBirthDates: seq<Date>,
    customerUsers: nat,
    adminUsers: nat)

  datatype PieReport = PieReport(
    orderStatus: OrderStatusCounts,
    productCategories: seq<CategoryShare>,
    stockAvailable: StockAvailability,
    revenueDistribution: RevenueDistribution,
    users: UserRoles,
    ageGroup: AgeGroups)

  predicate PieInputValid(input: PieInput)
  {
    |input.categoriesCount| == |input.categories|
  }

  function PieOf(input: PieInput): PieReport
    requires PieInputValid(input)
  {
    PieReport(
      OrderStatusCounts(input.processingOrders, input.shippedOrders, input.deliveredOrders),
      SharesOf(input.categories, input.categoriesCount, input.productCount),
      StockAvailabilityOf(input.productCount, input.productInStock),
      DistributionOf(input.allOrders),
      UserRoles(input.customerUsers, input.adminUsers),
      AgeGroupsOf(input.userBirthDates, input.today))
  }

  method ComputePie(input: PieInput) returns (report: PieReport)
    requires PieInputValid(input)
    ensures report == PieOf(input)
  {
    var productCategories := CategoryShares(input.categories, input.categoriesCount, input.productCount);
    report := PieReport(
      OrderStatusCounts(input.processingOrders, input.shippedOrders, input.deliveredOrders),
      productCategories,
      StockAvailabilityOf(input.productCount, input.productInStock),
      DistributionOf(input.allOrders),
      UserRoles(input.customerUsers, input.adminUsers),
      AgeGroupsOf(input.userBirthDates, input.today));
  }

  /** The query results the bar-chart report is built from: creation months. */
  datatype BarInput = BarInput(today: Month, products: seq<Month>, orders: seq<Month>, users: seq<Month>)

  datatype BarReport = BarReport(product: seq<int>, user: seq<int>, order: seq<int>)

  function BarOf(input: BarInput): BarReport
  {
    BarReport(
      Counts(input.today, input.products, 6),
      Counts(input.today, input.users, 6),
      Counts(input.today, input.orders, 12))
  }

  method ComputeBar(input: BarInput) returns (report: BarReport)
    ensures report == BarOf(input)
  {
    var productCount := CountByMonth(input.today, input.products, 6);
    var userCount := CountByMonth(input.today, input.users, 6);
    var orderCount := CountByMonth(input.today, input.orders, 12);
    report := BarReport(productCount[..], userCount[..], orderCount[..]);
  }

  /** The twelve-month order chart counts every order fetched; the six-month charts at most those fetched. */
  lemma BarChartAccounts(input: BarInput)
    ensures |BarOf(input).order| == 12 && Sum(BarOf(input).order) == |input.orders|
    ensures Sum(BarOf(input).product) <= |input.products|
    ensures Sum(BarOf(input).user) <= |input.users|
  {
    CountsAddUp(input.today, input.orders, 12);
    KeptCountBounds(input.today, input.orders, 12);
    CountsAddUp(input.today, input.products, 6);
    KeptCountBounds(input.today, input.products, 6);
    CountsAddUp(input.today, input.users, 6);
    KeptCountBounds(input.today, input.users, 6);
  }

  /**
   * An order as selected for the line chart. The chart adds `order.discount`
   * without a `|| 0` fallback; `discount` is an integer here because the
   * order schema requires it, so every stored order has one.
   */
  datatype LineOrder = LineOrder(month: Month, discount: int, total: int)

  datatype LineInput = LineInput(today: Month, orders: seq<LineOrder>, products: seq<Month>, users: seq<Month>)

  datatype LineReport = LineReport(product: seq<int>, user: seq<int>, discount: seq<int>, revenue: seq<int>)

  function DiscountsByMonth(orders: seq<LineOrder>): (r: seq<Dated>)
    ensures |r| == |orders|
  {
    seq(|orders|, i requires 0 <= i < |orders| => Dated(orders[i].month, orders[i].discount))
  }

  function RevenueByMonth(orders: seq<LineOrder>): (r: seq<Dated>)
    ensures |r| == |orders|
  {
    seq(|orders|, i requires 0 <= i < |orders| => Dated(orders[i].month, orders[i].total))
  }

  function LineOf(input: LineInput): LineReport
  {
    LineReport(
      Counts(input.today, input.products, 12),
      Counts(input.today, input.users, 12),
      Totals(input.today, DiscountsByMonth(input.orders), 12),
      Totals(input.today, RevenueByMonth(input.orders), 12))
  }

  method ComputeLine(input: LineInput) returns (report: LineReport)
    ensures report == LineOf(input)
  {
    var productCount := CountByMonth(input.today, input.products, 12);
    var userCount := CountByMonth(input.today, input.users, 12);
    var discount := TotalByMonth(input.today, DiscountsByMonth(input.orders), 12);
    var revenue := TotalByMonth(input.today, RevenueByMonth(input.orders), 12);
    report := LineReport(productCount[..], userCount[..], discount[..], revenue[..]);
  }

  /** Every twelve-month line chart accounts for all records fetched: counts and revenue are conserved. */
  lemma LineChartAccounts(input: LineInput)
    ensures Sum(LineOf(input).product) == |input.products|
    ensures Sum(LineOf(input).user) == |input.users|
    ensures Sum(LineOf(input).revenue) == TotalOf(RevenueByMonth(input.orders))
  {
    CountsAddUp(input.today, input.products, 12);
    KeptCountBounds(input.today, input.products, 12);
    CountsAddUp(input.today, input.users, 12);
    KeptCountBounds(input.today, input.users, 12);
    TotalsAddUp(input.today, RevenueByMonth(input.orders), 12);
    TwelveSlotsKeepAll(input.today, RevenueByMonth(input.orders));
  }

  // --- read-through caching --------------------------------------------------

  /** `getDashboardStats`: a stored report is returned as is; otherwise the report is computed, stored under `admin-stats` and returned. */
  method GetDashboardStats(cache: Cache, input: StatsInput, encode: StatsReport -> string) returns (outcome: Outcome)
    requires StatsInputValid(input)
    modifies cache
    ensures AdminStatsKey in old(cache.entries) ==>
      outcome == Done(200, old(cache.entries[AdminStatsKey])) && cache.entries == old(cache.entries)
    ensures AdminStatsKey !in old(cache.entries) ==>
      outcome == Done(200, encode(StatsOf(input))) && cache.entries == old(cache.entries)[AdminStatsKey := encode(StatsOf(input))]
  {
    var stats: string;
    if cache.Has(AdminStatsKey) {
      stats := cache.Get(AdminStatsKey).value;
    } else {
      var report := ComputeStats(input);
      stats := encode(report);
      cache.Set(AdminStatsKey, stats);
    }
    return Done(200, stats);
  }

  /** `getPieCharts`: the same read-through shape under `admin-pie-charts`. */
  method GetPieCharts(cache: Cache, input: PieInput, encode: PieReport -> string) returns (outcome: Outcome)
    requires PieInputValid(input)
    modifies cache
    ensures AdminPieChartsKey in old(cache.entries) ==>
      outcome == Done(200, old(cache.entries[AdminPieChartsKey])) && cache.entries == old(cache.entries)
    ensures AdminPieChartsKey !in old(cache.entries) ==>
      outcome == Done(200, encode(PieOf(input))) && cache.entries == old(cache.entries)[AdminPieChartsKey := encode(PieOf(input))]
  {
    var charts: string;
    if cache.Has(AdminPieChartsKey) {
      charts := cache.Get(AdminPieChartsKey).value;
    } else {
      var report := ComputePie(input);
      charts := encode(report);
      cache.Set(AdminPieChartsKey, charts);
    }
    return Done(200, charts);
  }

  /** `getBarCharts`: the same read-through shape under `admin-bar-charts`. */
  method GetBarCharts(cache: Cache, input: BarInput, encode: BarReport -> string) returns (outcome: Outcome)
    modifies cache
    ensures AdminBarChartsKey in old(cache.entries) ==>
      outcome == Done(200, old(cache.entries[AdminBarChartsKey])) && cache.entries == old(cache.entries)
    ensures AdminBarChartsKey !in old(cache.entries) ==>
      outcome == Done(200, encode(BarOf(input))) && cache.entries == old(cache.entries)[AdminBarChartsKey := encode(BarOf(input))]
  {
    var charts: string;
    if cache.Has(AdminBarChartsKey) {
      charts := cache.Get(AdminBarChartsKey).value;
    } else {
      var report := ComputeBar(input);
      charts := encode(report);
      cache.Set(AdminBarChartsKey, charts);
    }
    return Done(200, charts);
  }

  /**
   * `getLineCharts`: reads `admin-line-charts` when present but never writes
   * it, so the cache is unchanged and a miss recomputes every time.
   */
  method GetLineCharts(cache: Cache, input: LineInput, encode: LineReport -> string) returns (outcome: Outcome)
    modifies cache
    ensures cache.entries == old(cache.entries)
    ensures AdminLineChartsKey in old(cache.entries) ==> outcome == Done(200, old(cache.entries[AdminLineChartsKey]))
    ensures AdminLineChartsKey !in old(cache.entries) ==> outcome == Done(200, encode(LineOf(input)))
  {
    var charts: string;
    if cache.Has(AdminLineChartsKey) {
      charts := cache.Get(AdminLineChartsKey).value;
    } else {
      var report := ComputeLine(input);
      charts := encode(report);
    }
    return Done(200, charts);
  }

  /** Asking for the stats twice without a change in between gives the same answer, the second time from the cache. */
  method StatsTwice(cache: Cache, input: StatsInput, later: StatsInput, encode: StatsReport -> string)
    returns (first: Outcome, second: Outcome)
    requires StatsInputValid(input) && StatsInputValid(later)
    modifies cache
    ensures second == first
    ensures AdminStatsKey in cache.entries
  {
    first := GetDashboardStats(cache, input, encode);
    second := GetDashboardStats(cache, later, encode);
  }

  /** After an invalidation that selects the admin group, every report misses and is recomputed. */
  lemma AdminInvalidationClearsReports(entries: map<string, string>, change: ChangeSet)
    requires change.admin
    ensures AdminStatsKey !in Invalidated(entries, change)
    ensures AdminPieChartsKey !in Invalidated(entries, change)
    ensures AdminBarChartsKey !in Invalidated(entries, change)
    ensures AdminLineChartsKey !in Invalidated(entries, change)
  {
    InvalidatedExactly(entries, change, AdminStatsKey);
    InvalidatedExactly(entries, change, AdminPieChartsKey);
    InvalidatedExactly(entries, change, AdminBarChartsKey);
    InvalidatedExactly(entries, change, AdminLineChartsKey);
  }
}
