# Delivery fee calculator — Dafny model

This project models the delivery-fee rule of the delivery form
(`calculateDeliveryPrice` in `app/components/DeliveryForm.tsx`). The form takes
four inputs: the cart value, the delivery distance in metres, the number of
items and the order time. The rule computes the fee from them:

1. a base price of 2 €;
2. a small-order fee of `10 − cartValue` when the cart is below 10 €;
3. 1 € for every started 500 m block beyond the first 1000 m;
4. 0.50 € for every item from the fifth on, plus a flat 1.20 € bulk fee for
   more than twelve items;
5. a cap at 15 €;
6. on Fridays from 15:00 up to 16:59, judged on the hour alone, a coefficient
   of 1.2, after which the cap at 15 € applies again.

`delivery_form.dfy` (module `DeliveryForm`) holds the input record, one
function per rule, the specification function `DeliveryFee`, and the method
`CalculateDeliveryPrice`. The method follows the source statement by statement
on a running `deliveryFee` variable and is proved equal to `DeliveryFee`.
`fee_properties.dfy` (module `FeeProperties`) proves properties of the rule:

- reference definitions that price distance block by block and items one by
  one;
- the values at every threshold, and example fees;
- when the fee is exactly the base price;
- the shape of the fee inside the rush window;
- monotonicity in distance and items, and antitonicity in cart value;
- that the fee is always a whole number of cents.

Money is an exact decimal amount in euros (Dafny `real`). The numeric inputs
are integers, because the form parses every field with `parseInt`
(`DeliveryForm.tsx:25`). `Math.ceil` is modelled by `Ceil`, which is
characterised by its defining inequalities. The order time is reduced to its
day of week (0 = Sunday), its hour and its minute. The rule reads only the
day and the hour. The minute is kept so that `RushWindowInMinutes` can show
that the hour-based test is exactly the stretch from Friday 15:00 up to, not
including, Friday 17:00 on a clock that reads minutes.

The code does not validate its inputs, and neither does the model: every
function is total over all integers. The form's `min` hints (cart ≥ 0,
distance ≥ 0, items ≥ 1) are not needed for any property proved here. The
code computes a fee for negative inputs too, and the model follows the code.

## Model

| member | source | states |
|---|---|---|
| `DeliveryForm.Ceil` | app/components/DeliveryForm.tsx:54 | `Math.ceil(x)` is the integer `n` with `n − 1 < x ≤ n` |
| `DeliveryForm.SmallOrderSurcharge` | app/components/DeliveryForm.tsx:46-49 | the small-order fee is positive exactly when the cart is below 10, never negative, and tops the cart value up to exactly 10 |
| `DeliveryForm.DistanceSurcharge` | app/components/DeliveryForm.tsx:52-56 | the distance fee is a whole number of euros, positive exactly beyond 1000 m, and is the number `r` of 500 m blocks with `(r − 1)·500 < distance − 1000 ≤ r·500` |
| `DeliveryForm.ItemSurcharge` | app/components/DeliveryForm.tsx:59-65 | the item fee is never negative, is positive exactly from the fifth item on, and is then at least 0.50 |
| `DeliveryForm.Subtotal` | app/components/DeliveryForm.tsx:42-65 | the fee before the cap is never below the base price of 2 |
| `DeliveryForm.Cap` | app/components/DeliveryForm.tsx:68-70 | the capped fee is the minimum of the fee and 15: at most both, and equal to one of them |
| `DeliveryForm.IsRushHour` | app/components/DeliveryForm.tsx:73-75 | the window is Friday (day 5) in the hours 15 and 16, that is hour in [15, 17); the minute is not read |
| `DeliveryForm.DeliveryFee` | app/components/DeliveryForm.tsx:41-80 | the fee is between 2 and 15 for every input; outside the rush window it is the capped subtotal; inside the window it is at least 2 × 1.2 |
| `DeliveryForm.CalculateDeliveryPrice` | app/components/DeliveryForm.tsx:41-83 | the step-by-step computation on a running fee yields exactly `DeliveryFee`, hence a value between 2 and 15 |
| `FeeProperties.CeilUnique` | app/components/DeliveryForm.tsx:54 | any integer meeting the ceiling inequalities for `x` is `Math.ceil(x)` |
| `FeeProperties.DistanceSurchargeCountsBlocks` | app/components/DeliveryForm.tsx:52-56 | the distance fee equals the count of started 500 m blocks beyond 1000 m, counted one block at a time |
| `FeeProperties.ItemsPriceFromFifth` | app/components/DeliveryForm.tsx:60 | pricing items one by one (first four free, then 0.50 each) gives 0.50 · (n − 4) for n > 4 and 0 otherwise |
| `FeeProperties.ItemSurchargeCountsItems` | app/components/DeliveryForm.tsx:59-65 | the item fee is the sum of the per-item prices plus 1.20 exactly when there are more than twelve items |
| `FeeProperties.ItemSurchargeTiers` | app/components/DeliveryForm.tsx:59-65 | the item fee is 0 up to four items, 0.50 · (n − 4) from five to twelve, and 0.50 · (n − 4) + 1.20 above twelve, derived from the per-item sum |
| `FeeProperties.SurchargeThresholds` | app/components/DeliveryForm.tsx:46-65 | values at the thresholds: cart 10/9/0 gives 0/1/10; distance 1000/1001/1500/1501 gives 0/1/1/2; items 4/5/12/13 give 0/0.50/4.00/5.70 |
| `FeeProperties.FeeIsBasePrice` | app/components/DeliveryForm.tsx:42-80 | the fee is exactly 2 if and only if cart ≥ 10, distance ≤ 1000, items ≤ 4 and the order is outside the Friday window |
| `FeeProperties.RushHourFee` | app/components/DeliveryForm.tsx:67-80 | inside the window the fee is min(1.2 · subtotal, 15), so the first cap makes no difference, and a fee that the coefficient lifts past 15 comes out as 15, not 18 |
| `FeeProperties.RushWindowByHour` | app/components/DeliveryForm.tsx:73-75 | Friday 15:00 and 16:59 are in the window; 14:59, 17:00 and Thursday or Saturday at 16:00 are not; the minute never changes the fee |
| `FeeProperties.RushWindowInMinutes` | app/components/DeliveryForm.tsx:73-75 | for a valid day, hour and minute, the window holds exactly from Friday 15:00 up to, not including, Friday 17:00 counted in minutes of the week, so 16:59 is in and 17:00 is out |
| `FeeProperties.RushCoefficientNeverLowers` | app/components/DeliveryForm.tsx:76-79 | the fee is never below the capped subtotal, so the Friday coefficient and second cap never lower the fee |
| `FeeProperties.ExampleFees` | app/components/DeliveryForm.tsx:41-80 | example orders: plain weekday order 2.00; cart 9 gives 3.00; 1500 m gives 3.00; 13 items gives 7.70; Friday 16:00 gives 2.40; a capped Friday order stays 15.00 |
| `FeeProperties.DistanceSurchargeMonotone` | app/components/DeliveryForm.tsx:52-56 | a longer distance never has a smaller distance fee |
| `FeeProperties.ItemSurchargeMonotone` | app/components/DeliveryForm.tsx:59-65 | more items never have a smaller item fee |
| `FeeProperties.FeeMonotoneInSubtotal` | app/components/DeliveryForm.tsx:67-80 | at the same order time, the cap and the coefficient keep the order of two subtotals |
| `FeeProperties.FeeMonotoneInDistance` | app/components/DeliveryForm.tsx:52-80 | with everything else fixed, a longer distance never lowers the fee |
| `FeeProperties.FeeMonotoneInItems` | app/components/DeliveryForm.tsx:59-80 | with everything else fixed, more items never lower the fee |
| `FeeProperties.FeeAntitoneInCartValue` | app/components/DeliveryForm.tsx:46-80 | with everything else fixed, a bigger cart never raises the fee |
| `FeeProperties.SubtotalInTenCents` | app/components/DeliveryForm.tsx:42-65 | the fee before the cap is a whole number of ten-cent steps |
| `FeeProperties.FeeIsWholeCents` | app/components/DeliveryForm.tsx:42-80 | the final fee, including the 1.2 coefficient, is a whole number of cents, so two-decimal display loses nothing |

## Left out

- The React component, its `useState` state and the rendered form and result (`DeliveryForm.tsx:13-20`, `:85-184`) are user interface. `setDeliveryPrice` (`:82`) is modelled as the method's return value.
- `handleChange` (`:23-30`) and its `parseInt` coercion are left out, including the `NaN` an empty field produces. The model takes integer inputs.
- `handleDateChange` (`:33-38`), the date-picker widget and `Date.getDay`/`getHours` (`:73-74`) are left out, because the day and hour they return depend on the ambient time zone. The model takes the day of week and the hour as inputs.
- IEEE-754 rounding of `0.5`, `1.20` and `*= 1.2` (`:60-61`, `:76`) is not modelled; arithmetic is exact. For example, 13 items give exactly 7.70, where the browser computes a double close to it.
- The `toFixed(2)` display and the `JSON.stringify` echo (`:167`, `:175-177`) are presentation only. `FeeIsWholeCents` shows that, in exact arithmetic, two decimals display the fee without rounding.
