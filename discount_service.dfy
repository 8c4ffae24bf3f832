/**
 * The discount service: the Discount table maps a discount type (such as
 * "Children") to a percentage, and a percentage turns a price into a
 * discount amount.
 */
module DiscountService {
  import opened Wrappers

  /** One row of the Discount table. */
  datatype DiscountRow = DiscountRow(discountType: string, discountPercentage: real)

  /**
   * Position of the first row of `table` whose type is `discountType`: the
   * row the lookup query hands back first, if there is one.
   */
  function FirstMatch(table: seq<DiscountRow>, discountType: string): (r: Option<nat>)
    ensures r.None? <==> forall i :: 0 <= i < |table| ==> table[i].discountType != discountType
    ensures r.Some? ==> r.value < |table| && table[r.value].discountType == discountType
    ensures r.Some? ==> forall i :: 0 <= i < r.value ==> table[i].discountType != discountType
  {
    if table == [] then None
    else if table[0].discountType == discountType then Some(0)
    else match FirstMatch(table[1..], discountType)
      case None => None
      case Some(i) => Some(i + 1)
  }

  /**
   * The stored percentage for `discountType`, or 0 when no row has that
   * type. A function of the table: the lookup never changes it.
   */
  function GetDiscountPercentage(table: seq<DiscountRow>, discountType: string): (pct: real)
    ensures (forall i :: 0 <= i < |table| ==> table[i].discountType != discountType) ==> pct == 0.0
    ensures forall i :: 0 <= i < |table| && table[i].discountType == discountType &&
                        (forall j :: 0 <= j < i ==> table[j].discountType != discountType)
                        ==> pct == table[i].discountPercentage
  {
    match FirstMatch(table, discountType)
    case None => 0.0
    case Some(i) => table[i].discountPercentage
  }

  /** When every stored percentage lies in 0..100, so does every lookup result. */
  lemma PercentageInRange(table: seq<DiscountRow>, discountType: string)
    requires forall i :: 0 <= i < |table| ==> 0.0 <= table[i].discountPercentage <= 100.0
    ensures 0.0 <= GetDiscountPercentage(table, discountType) <= 100.0
  {
    var m := FirstMatch(table, discountType);
    if m.Some? {
      assert GetDiscountPercentage(table, discountType) == table[m.value].discountPercentage;
    }
  }

  /** The discount a percentage `discountPercentage` takes off `price`. */
  function CalculateDiscount(price: real, discountPercentage: real): (discount: real)
    ensures discount * 100.0 == price * discountPercentage
  {
    price * discountPercentage / 100.0
  }

  /** A 0% rate takes nothing off; a 100% rate takes the whole price; a rate in between takes part of it. */
  lemma CalculateDiscountRates(price: real, discountPercentage: real)
    ensures discountPercentage == 0.0 ==> CalculateDiscount(price, discountPercentage) == 0.0
    ensures discountPercentage == 100.0 ==> CalculateDiscount(price, discountPercentage) == price
    ensures 0.0 <= price && 0.0 <= discountPercentage <= 100.0 ==>
              0.0 <= CalculateDiscount(price, discountPercentage) <= price
  {
    if 0.0 <= price && 0.0 <= discountPercentage <= 100.0 {
      assert price * discountPercentage <= price * 100.0;
    }
  }

  /** For a non-negative price the discount grows with the percentage. */
  lemma CalculateDiscountMonotone(price: real, lower: real, higher: real)
    requires 0.0 <= price && lower <= higher
    ensures CalculateDiscount(price, lower) <= CalculateDiscount(price, higher)
  {
    assert price * (higher - lower) >= 0.0;
  }
}
