/** Properties of the delivery-fee rule: its reference definitions by counting,
    its exact values at the thresholds, its shape inside and outside the rush
    window, its monotonicity, and its exactness to the cent. */
module FeeProperties {
  import opened DeliveryForm

  /** Distance priced block by block: every started 500 m block beyond what is
      free costs one euro. */
  function BlocksStarted(extra: int): (n: nat)
    decreases extra
  {
    if extra <= 0 then 0 else 1 + BlocksStarted(extra - DistanceBlock)
  }

  /** Items priced one by one: the i-th item of the order costs nothing when it
      is among the first four and `ItemPrice` otherwise. */
  function ItemsPrice(n: int): (p: real)
    decreases n
  {
    if n <= 0 then 0.0 else ItemsPrice(n - 1) + (if n > FreeItems then ItemPrice else 0.0)
  }

  /** `Math.ceil` is determined by its defining inequalities. */
  lemma CeilUnique(x: real, n: int)
    requires n as real - 1.0 < x <= n as real
    ensures Ceil(x) == n
  {
    var m := Ceil(x);
    assert (n - 1) as real < m as real && (m - 1) as real < n as real;
  }

  /** The distance surcharge counts the started 500 m blocks beyond 1000 m. */
  lemma {:induction false} DistanceSurchargeCountsBlocks(deliveryDistance: int)
    ensures DistanceSurcharge(deliveryDistance) == BlocksStarted(deliveryDistance - FreeDistance) as real
    decreases deliveryDistance - FreeDistance
  {
    var extra := deliveryDistance - FreeDistance;
    var x := extra as real / DistanceBlock as real;
    if extra > DistanceBlock {
      DistanceSurchargeCountsBlocks(deliveryDistance - DistanceBlock);
      var m := Ceil(x - 1.0);
      assert (extra - DistanceBlock) as real / DistanceBlock as real == x - 1.0;
      CeilUnique(x, m + 1);
    } else if extra > 0 {
      CeilUnique(x, 1);
    }
  }

  lemma {:induction false} ItemsPriceFromFifth(n: int)
    ensures ItemsPrice(n) == if n > FreeItems then (n - FreeItems) as real * ItemPrice else 0.0
    decreases n
  {
    if n > 0 {
      ItemsPriceFromFifth(n - 1);
    }
  }

  /** The item surcharge is the sum of the per-item prices, plus the flat bulk
      fee for more than twelve items. */
  lemma ItemSurchargeCountsItems(amountOfItems: int)
    ensures ItemSurcharge(amountOfItems) ==
      ItemsPrice(amountOfItems) + (if amountOfItems > BulkLimit then BulkFee else 0.0)
  {
    ItemsPriceFromFifth(amountOfItems);
  }

  /** The item surcharge in its three tiers: nothing up to four items, half a
      euro per item from the fifth, and the bulk fee on top above twelve. */
  lemma ItemSurchargeTiers(amountOfItems: int)
    ensures amountOfItems <= FreeItems ==> ItemSurcharge(amountOfItems) == 0.0
    ensures FreeItems < amountOfItems <= BulkLimit ==>
      ItemSurcharge(amountOfItems) == (amountOfItems - FreeItems) as real * ItemPrice
    ensures amountOfItems > BulkLimit ==>
      ItemSurcharge(amountOfItems) == (amountOfItems - FreeItems) as real * ItemPrice + BulkFee
  {
    ItemSurchargeCountsItems(amountOfItems);
  }

  /** The surcharge thresholds, at their edges. */
  lemma SurchargeThresholds()
    ensures SmallOrderSurcharge(10) == 0.0 && SmallOrderSurcharge(9) == 1.0 && SmallOrderSurcharge(0) == 10.0
    ensures DistanceSurcharge(1000) == 0.0 && DistanceSurcharge(1001) == 1.0
    ensures DistanceSurcharge(1500) == 1.0 && DistanceSurcharge(1501) == 2.0
    ensures ItemSurcharge(4) == 0.0 && ItemSurcharge(5) == 0.5
    ensures ItemSurcharge(12) == 4.0 && ItemSurcharge(13) == 5.7
  {
    DistanceSurchargeCountsBlocks(1001);
    DistanceSurchargeCountsBlocks(1500);
    DistanceSurchargeCountsBlocks(1501);
  }

  /** The fee is the base price exactly when no surcharge applies and the order
      is outside the rush window. */
  lemma FeeIsBasePrice(formData: FormData)
    ensures DeliveryFee(formData) == BasePrice <==>
      formData.cartValue >= SmallOrderLimit
      && formData.deliveryDistance <= FreeDistance
      && formData.amountOfItems <= FreeItems
      && !IsRushHour(formData.time)
  {
  }

  /** Inside the rush window the first cap makes no difference: the fee is the
      subtotal times the coefficient, capped once. */
  lemma RushHourFee(formData: FormData)
    requires IsRushHour(formData.time)
    ensures DeliveryFee(formData) == Cap(Subtotal(formData) * RushCoefficient)
    ensures Subtotal(formData) * RushCoefficient >= MaxFee ==> DeliveryFee(formData) == MaxFee
  {
  }

  /** The rush window is judged on the hour alone: 16:59 on a Friday is in it,
      17:00 is not. The last clause holds because the rule never reads the
      minute. */
  lemma RushWindowByHour(formData: FormData, minute: int)
    ensures IsRushHour(OrderTime(Friday, 15, 0)) && IsRushHour(OrderTime(Friday, 16, 59))
    ensures !IsRushHour(OrderTime(Friday, 14, 59)) && !IsRushHour(OrderTime(Friday, 17, 0))
    ensures !IsRushHour(OrderTime(Friday - 1, 16, 0)) && !IsRushHour(OrderTime(Friday + 1, 16, 0))
    ensures DeliveryFee(formData.(time := formData.time.(minute := minute))) == DeliveryFee(formData)
  {
  }

  /** The point in the week, in minutes from Sunday 00:00. */
  function MinuteOfWeek(time: OrderTime): int
  {
    (time.day * 24 + time.hour) * 60 + time.minute
  }

  /** On a clock that reads minutes, the window is exactly the stretch of the
      week from Friday 15:00 up to, not including, Friday 17:00. */
  lemma RushWindowInMinutes(time: OrderTime)
    requires 0 <= time.day < 7 && 0 <= time.hour < 24 && 0 <= time.minute < 60
    ensures IsRushHour(time) <==>
      MinuteOfWeek(OrderTime(Friday, RushStart, 0)) <= MinuteOfWeek(time) < MinuteOfWeek(OrderTime(Friday, RushEnd, 0))
  {
    var h := time.day * 24 + time.hour;
    assert MinuteOfWeek(time) == h * 60 + time.minute;
    assert Friday * 24 + RushStart <= h < Friday * 24 + RushEnd <==>
      (Friday * 24 + RushStart) * 60 <= h * 60 + time.minute < (Friday * 24 + RushEnd) * 60;
    assert IsRushHour(time) <==> Friday * 24 + RushStart <= h < Friday * 24 + RushEnd;
  }

  /** The Friday coefficient never lowers the fee of the same order. */
  lemma RushCoefficientNeverLowers(formData: FormData)
    ensures DeliveryFee(formData) >= Cap(Subtotal(formData))
  {
  }

  /** Example orders and the fees the rule gives them. */
  lemma ExampleFees()
    ensures DeliveryFee(FormData(10, 1000, 1, OrderTime(1, 12, 0))) == 2.0
    ensures DeliveryFee(FormData(9, 1000, 1, OrderTime(1, 12, 0))) == 3.0
    ensures DeliveryFee(FormData(10, 1500, 1, OrderTime(1, 12, 0))) == 3.0
    ensures DeliveryFee(FormData(10, 1000, 13, OrderTime(1, 12, 0))) == 7.7
    ensures DeliveryFee(FormData(10, 1000, 1, OrderTime(Friday, 16, 0))) == 2.4
    ensures DeliveryFee(FormData(0, 3500, 1, OrderTime(Friday, 16, 0))) == 15.0
  {
    DistanceSurchargeCountsBlocks(1500);
    DistanceSurchargeCountsBlocks(3500);
  }

  lemma DistanceSurchargeMonotone(d1: int, d2: int)
    requires d1 <= d2
    ensures DistanceSurcharge(d1) <= DistanceSurcharge(d2)
  {
    if d1 > FreeDistance {
      var x1 := (d1 - FreeDistance) as real / DistanceBlock as real;
      var x2 := (d2 - FreeDistance) as real / DistanceBlock as real;
      assert x1 <= x2;
      var n1, n2 := Ceil(x1), Ceil(x2);
      assert (n1 - 1) as real < n2 as real;
      assert n1 <= n2;
      assert DistanceSurcharge(d1) == n1 as real && DistanceSurcharge(d2) == n2 as real;
    }
  }

  lemma ItemSurchargeMonotone(n1: int, n2: int)
    requires n1 <= n2
    ensures ItemSurcharge(n1) <= ItemSurcharge(n2)
  {
  }

  /** The cap and the rush coefficient keep the order of two subtotals. */
  lemma FeeMonotoneInSubtotal(a: FormData, b: FormData)
    requires a.time == b.time && Subtotal(a) <= Subtotal(b)
    ensures DeliveryFee(a) <= DeliveryFee(b)
  {
  }

  /** A longer distance never lowers the fee. */
  lemma FeeMonotoneInDistance(formData: FormData, deliveryDistance: int)
    requires formData.deliveryDistance <= deliveryDistance
    ensures DeliveryFee(formData) <= DeliveryFee(formData.(deliveryDistance := deliveryDistance))
  {
    DistanceSurchargeMonotone(formData.deliveryDistance, deliveryDistance);
    FeeMonotoneInSubtotal(formData, formData.(deliveryDistance := deliveryDistance));
  }

  /** More items never lower the fee. */
  lemma FeeMonotoneInItems(formData: FormData, amountOfItems: int)
    requires formData.amountOfItems <= amountOfItems
    ensures DeliveryFee(formData) <= DeliveryFee(formData.(amountOfItems := amountOfItems))
  {
    ItemSurchargeMonotone(formData.amountOfItems, amountOfItems);
    FeeMonotoneInSubtotal(formData, formData.(amountOfItems := amountOfItems));
  }

  /** A bigger cart never raises the fee. */
  lemma FeeAntitoneInCartValue(formData: FormData, cartValue: int)
    requires formData.cartValue <= cartValue
    ensures DeliveryFee(formData.(cartValue := cartValue)) <= DeliveryFee(formData)
  {
    FeeMonotoneInSubtotal(formData.(cartValue := cartValue), formData);
  }

  /** `x` is a whole number of cents. */
  ghost predicate IsWholeCents(x: real)
  {
    (x * 100.0).Floor as real == x * 100.0
  }

  /** Every surcharge is a whole number of ten-cent steps, so the subtotal is too. */
  lemma SubtotalInTenCents(formData: FormData) returns (tenths: int)
    ensures Subtotal(formData) * 10.0 == tenths as real
  {
    var small := if formData.cartValue < SmallOrderLimit then SmallOrderLimit - formData.cartValue else 0;
    var blocks := DistanceSurcharge(formData.deliveryDistance).Floor;
    var n := formData.amountOfItems;
    var items := if n >= 5 then 5 * (n - FreeItems) + (if n > BulkLimit then 12 else 0) else 0;
    tenths := 20 + 10 * small + 10 * blocks + items;
  }

  /** The fee is exact to the cent, so showing it with two decimals loses nothing. */
  lemma FeeIsWholeCents(formData: FormData)
    ensures IsWholeCents(DeliveryFee(formData))
  {
    var tenths := SubtotalInTenCents(formData);
    var capped := Cap(Subtotal(formData));
    var cappedTenths := if Subtotal(formData) > MaxFee then 150 else tenths;
    assert capped * 10.0 == cappedTenths as real;
    var cents := if !IsRushHour(formData.time) then 10 * cappedTenths
                 else if capped * RushCoefficient > MaxFee then 1500
                 else 12 * cappedTenths;
    assert DeliveryFee(formData) * 100.0 == cents as real;
  }
}
