/** The delivery-fee rule of the delivery form: a base price, three surcharges
    (small cart, long distance, many items), a cap, and a Friday-afternoon
    coefficient followed by the cap again.

    Money is an exact decimal amount in euros (`real`); the form's numeric
    inputs are integers, as the form parses them with `parseInt`. */
module DeliveryForm {

  /** The point in time of the order, reduced to the components the rule reads
      (day of week, 0 = Sunday, and hour of day) plus the minute, which the rule
      does not read; the minute is kept so that the window can be compared with
      a clock that does read it (`FeeProperties.RushWindowInMinutes`). */
  datatype OrderTime = OrderTime(day: int, hour: int, minute: int)

  /** The form's input record. */
  datatype FormData = FormData(
    cartValue: int,
    deliveryDistance: int,
    amountOfItems: int,
    time: OrderTime)

  const BasePrice: real := 2.0
  /** Carts below this value (euros) pay the difference as a small-order fee. */
  const SmallOrderLimit: int := 10
  /** Metres delivered for the base price; every started block beyond costs 1 euro. */
  const FreeDistance: int := 1000
  const DistanceBlock: int := 500
  /** Items delivered for the base price; every further item costs `ItemPrice`. */
  const FreeItems: int := 4
  const ItemPrice: real := 0.5
  /** Orders of more than `BulkLimit` items pay the flat `BulkFee` on top. */
  const BulkLimit: int := 12
  const BulkFee: real := 1.2
  const MaxFee: real := 15.0
  const Friday: int := 5
  /** The rush window is [RushStart, RushEnd) in whole hours. */
  const RushStart: int := 15
  const RushEnd: int := 17
  const RushCoefficient: real := 1.2

  /** `Math.ceil`: the least integer not below `x`. */
  function Ceil(x: real): (n: int)
    ensures n as real - 1.0 < x <= n as real
  {
    -((-x).Floor)
  }

  /** The small-order fee tops a cart below the limit up to the limit. */
  function SmallOrderSurcharge(cartValue: int): (r: real)
    ensures r >= 0.0
    ensures r > 0.0 <==> cartValue < SmallOrderLimit
    ensures cartValue < SmallOrderLimit ==> cartValue as real + r == SmallOrderLimit as real
  {
    if cartValue < SmallOrderLimit then (SmallOrderLimit - cartValue) as real else 0.0
  }

  /** One euro for every 500 m block, started or whole, beyond the first 1000 m. */
  function DistanceSurcharge(deliveryDistance: int): (r: real)
    ensures r == r.Floor as real
    ensures r >= 0.0
    ensures r > 0.0 <==> deliveryDistance > FreeDistance
    ensures deliveryDistance > FreeDistance ==>
      (r - 1.0) * 500.0 < (deliveryDistance - FreeDistance) as real <= r * 500.0
  {
    var additionalDistance := deliveryDistance - FreeDistance;
    if additionalDistance > 0 then
      Ceil(additionalDistance as real / DistanceBlock as real) as real
    else
      0.0
  }

  /** Half a euro for every item from the fifth on, and the bulk fee for more
      than twelve items. */
  function ItemSurcharge(amountOfItems: int): (r: real)
    ensures r >= 0.0
    ensures r > 0.0 <==> amountOfItems > FreeItems
    ensures amountOfItems > FreeItems ==> r >= ItemPrice
  {
    if amountOfItems >= 5 then
      var additionalSurcharge := (amountOfItems - FreeItems) as real * ItemPrice;
      var bulkFee := if amountOfItems > BulkLimit then BulkFee else 0.0;
      additionalSurcharge + bulkFee
    else
      0.0
  }

  /** The fee before the cap: the base price plus every surcharge. */
  function Subtotal(formData: FormData): (s: real)
    ensures s >= BasePrice
  {
    BasePrice
      + SmallOrderSurcharge(formData.cartValue)
      + DistanceSurcharge(formData.deliveryDistance)
      + ItemSurcharge(formData.amountOfItems)
  }

  /** The maximum-fee constraint: the smaller of `fee` and the maximum. */
  function Cap(fee: real): (r: real)
    ensures r <= MaxFee && r <= fee
    ensures r == fee || r == MaxFee
  {
    if fee > MaxFee then MaxFee else fee
  }

  /** Friday from 15:00 up to, not including, 17:00, judged by the hour alone. */
  predicate IsRushHour(time: OrderTime): (r: bool)
    ensures r <==> time.day == Friday && (time.hour == 15 || time.hour == 16)
  {
    time.day == Friday && time.hour >= RushStart && time.hour < RushEnd
  }

  /** The delivery fee the form shows for `formData`. */
  function DeliveryFee(formData: FormData): (fee: real)
    ensures BasePrice <= fee <= MaxFee
    ensures !IsRushHour(formData.time) ==> fee == Cap(Subtotal(formData))
    ensures IsRushHour(formData.time) ==> fee >= BasePrice * RushCoefficient
  {
    var capped := Cap(Subtotal(formData));
    if IsRushHour(formData.time) then Cap(capped * RushCoefficient) else capped
  }

  /** The form's calculation, step by step on a running fee; the value it
      hands to the display is the result. */
  method CalculateDeliveryPrice(formData: FormData) returns (deliveryPrice: real)
    ensures deliveryPrice == DeliveryFee(formData)
    ensures BasePrice <= deliveryPrice <= MaxFee
  {
    var deliveryFee := BasePrice;

    if formData.cartValue < SmallOrderLimit {
      var smallOrderFee := (SmallOrderLimit - formData.cartValue) as real;
      deliveryFee := deliveryFee + smallOrderFee;
    }

    var additionalDistance := formData.deliveryDistance - FreeDistance;
    if additionalDistance > 0 {
      var additionalFee := Ceil(additionalDistance as real / DistanceBlock as real);
      deliveryFee := deliveryFee + additionalFee as real;
    }

    if formData.amountOfItems >= 5 {
      var additionalSurcharge := (formData.amountOfItems - FreeItems) as real * ItemPrice;
      var bulkFee := if formData.amountOfItems > BulkLimit then BulkFee else 0.0;
      var itemFee := additionalSurcharge + bulkFee;
      deliveryFee := deliveryFee + itemFee;
    }

    if deliveryFee > MaxFee {
      deliveryFee := MaxFee;
    }

    var day := formData.time.day;
    var hour := formData.time.hour;
    if day == Friday && hour >= RushStart && hour < RushEnd {
      deliveryFee := deliveryFee * RushCoefficient;
      if deliveryFee > MaxFee {
        deliveryFee := MaxFee;
      }
    }

    deliveryPrice := deliveryFee;
  }
}
