/**
 * The pricing half of completing a booking: each category selection (a
 * price band and a quantity) adds to the ticket count, discounted
 * categories add a percentage discount, and more than 20 tickets earn a
 * further 5% off what remains of the client's base total.
 */
module BookingPricing {
  import opened Wrappers
  import opened DiscountService

  /** The band and quantity chosen for one category; an empty band stands for "no band chosen". */
  datatype Selection = Selection(band: string, qty: int)

  /** One key of the request's `categories` object with its selection, in key order. */
  datatype CategoryEntry = CategoryEntry(key: string, selection: Selection)

  /** The authoritative discount and payable total of a booking. */
  datatype Quote = Quote(finalDiscount: real, finalTotal: real)

  /** More tickets than this earn the volume discount. */
  const VolumeThreshold: nat := 20

  /** The volume discount rate, applied to what remains after category discounts. */
  const VolumeRate: real := 0.05

  /** The one error message a failed booking reports, whatever failed. */
  const GenericError := "Error completing booking."

  /** A selection is purchased when a band is chosen and the quantity is positive. */
  predicate Purchased(s: Selection)
  {
    s.band != "" && s.qty > 0
  }

  /** The price of `band` in the performance's band prices, 0 when the band is absent. */
  function BandPrice(prices: map<string, real>, band: string): (price: real)
    ensures band !in prices ==> price == 0.0
    ensures band in prices ==> price == prices[band]
    ensures (forall b :: b in prices ==> prices[b] >= 0.0) ==> price >= 0.0
  {
    if band in prices then prices[band] else 0.0
  }

  /** The discount type a category key is entitled to; adults and any other key get none. */
  function DiscountTypeOf(key: string): (t: Option<string>)
    ensures t.Some? <==> key == "children" || key == "oap" || key == "social"
    ensures key == "children" ==> t == Some("Children")
    ensures key == "oap" ==> t == Some("Old Age Pensioners")
    ensures key == "social" ==> t == Some("Social Group")
  {
    if key == "children" then Some("Children")
    else if key == "oap" then Some("Old Age Pensioners")
    else if key == "social" then Some("Social Group")
    else None
  }

  /** Tickets one entry contributes. */
  function EntryTickets(e: CategoryEntry): nat
  {
    if Purchased(e.selection) then e.selection.qty else 0
  }

  /** Category discount one entry contributes: the per-ticket discount times the quantity. */
  function EntryDiscount(e: CategoryEntry, prices: map<string, real>, table: seq<DiscountRow>): real
  {
    if Purchased(e.selection) && DiscountTypeOf(e.key).Some? then
      CalculateDiscount(BandPrice(prices, e.selection.band),
                        GetDiscountPercentage(table, DiscountTypeOf(e.key).value)) * e.selection.qty as real
    else 0.0
  }

  /** Undiscounted price of the tickets one entry buys. */
  function EntryValue(e: CategoryEntry, prices: map<string, real>): real
  {
    if Purchased(e.selection) then BandPrice(prices, e.selection.band) * e.selection.qty as real else 0.0
  }

  /** Total number of tickets over the purchased entries. */
  function TicketCount(cats: seq<CategoryEntry>): nat
  {
    if cats == [] then 0 else TicketCount(cats[..|cats| - 1]) + EntryTickets(cats[|cats| - 1])
  }

  /** Sum of the per-category discounts, before any volume discount. */
  function CategoryDiscount(cats: seq<CategoryEntry>, prices: map<string, real>, table: seq<DiscountRow>): real
  {
    if cats == [] then 0.0
    else CategoryDiscount(cats[..|cats| - 1], prices, table) + EntryDiscount(cats[|cats| - 1], prices, table)
  }

  /** Sum of the undiscounted band prices of every ticket bought. */
  function UndiscountedValue(cats: seq<CategoryEntry>, prices: map<string, real>): real
  {
    if cats == [] then 0.0 else UndiscountedValue(cats[..|cats| - 1], prices) + EntryValue(cats[|cats| - 1], prices)
  }

  /** Whether pricing `cats` consults the Discount table at all. */
  predicate NeedsLookup(cats: seq<CategoryEntry>)
  {
    exists i :: 0 <= i < |cats| && Purchased(cats[i].selection) && DiscountTypeOf(cats[i].key).Some?
  }

  /** The extra discount for a booking of `totalTickets` tickets. */
  function VolumeDiscount(totalTickets: nat, totalAmount: real, discountTotal: real): (extra: real)
    ensures totalTickets <= VolumeThreshold ==> extra == 0.0
    ensures totalTickets > VolumeThreshold ==> extra == (totalAmount - discountTotal) * VolumeRate
    ensures discountTotal <= totalAmount ==> 0.0 <= extra <= totalAmount - discountTotal
  {
    if totalTickets > VolumeThreshold then (totalAmount - discountTotal) * VolumeRate else 0.0
  }

  /**
   * The quote for a booking: the category discounts plus the volume
   * discount, taken off the client-supplied base total, which is not
   * recomputed from the categories and may end up negative.
   */
  function PriceBooking(cats: seq<CategoryEntry>, prices: map<string, real>, table: seq<DiscountRow>,
                        totalAmount: real): (q: Quote)
    ensures q.finalDiscount + q.finalTotal == totalAmount
  {
    var discountTotal := CategoryDiscount(cats, prices, table);
    var finalDiscount := discountTotal + VolumeDiscount(TicketCount(cats), totalAmount, discountTotal);
    Quote(finalDiscount, totalAmount - finalDiscount)
  }

  /**
   * The pricing loop of the booking handler. A failing Discount lookup
   * (`lookupFails`) aborts it, but only if a lookup is made.
   */
  method PriceCategories(cats: seq<CategoryEntry>, prices: map<string, real>, table: seq<DiscountRow>,
                         totalAmount: real, lookupFails: bool) returns (r: Result<Quote, string>)
    ensures r.Err? <==> lookupFails && NeedsLookup(cats)
    ensures r.Err? ==> r.error == GenericError
    ensures r.Ok? ==> r.value == PriceBooking(cats, prices, table, totalAmount)
  {
    var discountTotal := 0.0;
    var totalTickets := 0;
    for i := 0 to |cats|
      invariant discountTotal == CategoryDiscount(cats[..i], prices, table)
      invariant totalTickets == TicketCount(cats[..i])
      invariant lookupFails ==> forall j :: 0 <= j < i ==> !(Purchased(cats[j].selection) && DiscountTypeOf(cats[j].key).Some?)
    {
      var e := cats[i];
      if e.selection.band == "" || e.selection.qty <= 0 {
        SkipStep(cats, i, prices, table);
        continue;
      }
      totalTickets := totalTickets + e.selection.qty;
      var ticketPrice := BandPrice(prices, e.selection.band);
      var discountType := DiscountTypeOf(e.key);
      if discountType.Some? {
        if lookupFails {
          return Err(GenericError);
        }
        var baseDiscount := GetDiscountPercentage(table, discountType.value);
        var discountPerTicket := CalculateDiscount(ticketPrice, baseDiscount);
        DiscountStep(cats, i, prices, table, discountTotal, discountPerTicket);
        discountTotal := discountTotal + discountPerTicket * e.selection.qty as real;
      } else {
        NoDiscountStep(cats, i, prices, table);
      }
    }
    assert cats[..|cats|] == cats;
    var additionalDiscount := 0.0;
    if totalTickets > VolumeThreshold {
      var leftover := totalAmount - discountTotal;
      additionalDiscount := leftover * VolumeRate;
    }
    assert additionalDiscount == VolumeDiscount(totalTickets, totalAmount, discountTotal);
    var finalDiscount := discountTotal + additionalDiscount;
    r := Ok(Quote(finalDiscount, totalAmount - finalDiscount));
  }

  /** A skipped entry leaves the ticket count and the discount of the prefix unchanged. */
  lemma SkipStep(cats: seq<CategoryEntry>, i: nat, prices: map<string, real>, table: seq<DiscountRow>)
    requires i < |cats| && (cats[i].selection.band == "" || cats[i].selection.qty <= 0)
    ensures TicketCount(cats[..i + 1]) == TicketCount(cats[..i])
    ensures CategoryDiscount(cats[..i + 1], prices, table) == CategoryDiscount(cats[..i], prices, table)
  {
    assert cats[..i + 1][..i] == cats[..i];
  }

  /** A purchased entry with no discount type adds its tickets and no discount. */
  lemma NoDiscountStep(cats: seq<CategoryEntry>, i: nat, prices: map<string, real>, table: seq<DiscountRow>)
    requires i < |cats| && Purchased(cats[i].selection) && DiscountTypeOf(cats[i].key).None?
    ensures TicketCount(cats[..i + 1]) == TicketCount(cats[..i]) + cats[i].selection.qty
    ensures CategoryDiscount(cats[..i + 1], prices, table) == CategoryDiscount(cats[..i], prices, table)
  {
    assert cats[..i + 1][..i] == cats[..i];
  }

  /** A purchased entry with a discount type adds its tickets and its per-ticket discount times its quantity. */
  lemma DiscountStep(cats: seq<CategoryEntry>, i: nat, prices: map<string, real>, table: seq<DiscountRow>,
                      before: real, perTicket: real)
    requires i < |cats| && Purchased(cats[i].selection) && DiscountTypeOf(cats[i].key).Some?
    requires before == CategoryDiscount(cats[..i], prices, table)
    requires perTicket == CalculateDiscount(BandPrice(prices, cats[i].selection.band),
                                            GetDiscountPercentage(table, DiscountTypeOf(cats[i].key).value))
    ensures TicketCount(cats[..i + 1]) == TicketCount(cats[..i]) + cats[i].selection.qty
    ensures CategoryDiscount(cats[..i + 1], prices, table) == before + perTicket * cats[i].selection.qty as real
  {
    var prefix := cats[..i + 1];
    assert prefix[..i] == cats[..i] && prefix[i] == cats[i];
    assert CategoryDiscount(prefix, prices, table) ==
             CategoryDiscount(cats[..i], prices, table) + EntryDiscount(cats[i], prices, table);
  }

  /** The counts and sums distribute over concatenation of the category list. */
  lemma {:induction false} SumsAppend(a: seq<CategoryEntry>, b: seq<CategoryEntry>,
                                      prices: map<string, real>, table: seq<DiscountRow>)
    ensures TicketCount(a + b) == TicketCount(a) + TicketCount(b)
    ensures CategoryDiscount(a + b, prices, table) == CategoryDiscount(a, prices, table) + CategoryDiscount(b, prices, table)
    ensures UndiscountedValue(a + b, prices) == UndiscountedValue(a, prices) + UndiscountedValue(b, prices)
    decreases |b|
  {
    if b == [] {
      assert a + b == a;
    } else {
      assert (a + b)[..|a + b| - 1] == a + b[..|b| - 1];
      SumsAppend(a, b[..|b| - 1], prices, table);
    }
  }

  /**
   * An entry with no band or a non-positive quantity changes neither the
   * ticket count, nor the discount, nor the quote, wherever it stands.
   */
  lemma SkippedEntryContributesNothing(a: seq<CategoryEntry>, e: CategoryEntry, b: seq<CategoryEntry>,
                                       prices: map<string, real>, table: seq<DiscountRow>, totalAmount: real)
    requires e.selection.band == "" || e.selection.qty <= 0
    ensures TicketCount(a + [e] + b) == TicketCount(a + b)
    ensures CategoryDiscount(a + [e] + b, prices, table) == CategoryDiscount(a + b, prices, table)
    ensures PriceBooking(a + [e] + b, prices, table, totalAmount) == PriceBooking(a + b, prices, table, totalAmount)
  {
    SumsAppend(a + [e], b, prices, table);
    SumsAppend(a, [e], prices, table);
    SumsAppend(a, b, prices, table);
    assert [e][..0] == [];
  }

  /** A key with no discount type (adults, or any unknown key) adds tickets but no category discount. */
  lemma UndiscountedKeyAddsNoDiscount(a: seq<CategoryEntry>, e: CategoryEntry, b: seq<CategoryEntry>,
                                      prices: map<string, real>, table: seq<DiscountRow>)
    requires e.key != "children" && e.key != "oap" && e.key != "social"
    ensures CategoryDiscount(a + [e] + b, prices, table) == CategoryDiscount(a + b, prices, table)
    ensures TicketCount(a + [e] + b) == TicketCount(a + b) + EntryTickets(e)
  {
    SumsAppend(a + [e], b, prices, table);
    SumsAppend(a, [e], prices, table);
    SumsAppend(a, b, prices, table);
    assert [e][..0] == [];
  }

  /** A band absent from the band prices is priced at 0, so its entry takes no discount and is worth nothing. */
  lemma AbsentBandIsFree(e: CategoryEntry, prices: map<string, real>, table: seq<DiscountRow>)
    requires e.selection.band !in prices
    ensures EntryDiscount(e, prices, table) == 0.0
    ensures EntryValue(e, prices) == 0.0
  {
  }

  /**
   * The volume rule: up to 20 tickets the discount is exactly the sum of
   * the category discounts; beyond 20 it adds 5% of what the category
   * discounts leave of the base total, once and not compounded.
   */
  lemma VolumeRule(cats: seq<CategoryEntry>, prices: map<string, real>, table: seq<DiscountRow>, totalAmount: real)
    ensures TicketCount(cats) <= VolumeThreshold ==>
              PriceBooking(cats, prices, table, totalAmount).finalDiscount == CategoryDiscount(cats, prices, table)
    ensures TicketCount(cats) > VolumeThreshold ==>
              PriceBooking(cats, prices, table, totalAmount).finalDiscount ==
                CategoryDiscount(cats, prices, table) + (totalAmount - CategoryDiscount(cats, prices, table)) * VolumeRate
  {
  }

  /** Category discounts are zero when no discount type applies to any purchased entry. */
  lemma {:induction false} NoLookupNoCategoryDiscount(cats: seq<CategoryEntry>, prices: map<string, real>,
                                                      table: seq<DiscountRow>)
    requires !NeedsLookup(cats)
    ensures CategoryDiscount(cats, prices, table) == 0.0
    decreases |cats|
  {
    if cats != [] {
      var init := cats[..|cats| - 1];
      assert !NeedsLookup(init) by {
        forall i | 0 <= i < |init| ensures !(Purchased(init[i].selection) && DiscountTypeOf(init[i].key).Some?) {
          assert init[i] == cats[i];
        }
      }
      NoLookupNoCategoryDiscount(init, prices, table);
    }
  }

  /** More than 20 tickets and no category discount: the discount is exactly 5% of the base total. */
  lemma VolumeOnlyDiscount(cats: seq<CategoryEntry>, prices: map<string, real>, table: seq<DiscountRow>, totalAmount: real)
    requires TicketCount(cats) > VolumeThreshold && !NeedsLookup(cats)
    ensures PriceBooking(cats, prices, table, totalAmount).finalDiscount == totalAmount * VolumeRate
    ensures PriceBooking(cats, prices, table, totalAmount).finalTotal == totalAmount * (1.0 - VolumeRate)
  {
    NoLookupNoCategoryDiscount(cats, prices, table);
  }

  /**
   * With non-negative prices and percentages of at most 100, the category
   * discounts lie between 0 and the undiscounted price of the tickets.
   */
  lemma {:induction false} CategoryDiscountBounded(cats: seq<CategoryEntry>, prices: map<string, real>,
                                                   table: seq<DiscountRow>)
    requires forall b :: b in prices ==> prices[b] >= 0.0
    requires forall i :: 0 <= i < |table| ==> 0.0 <= table[i].discountPercentage <= 100.0
    ensures 0.0 <= CategoryDiscount(cats, prices, table) <= UndiscountedValue(cats, prices)
    decreases |cats|
  {
    if cats != [] {
      CategoryDiscountBounded(cats[..|cats| - 1], prices, table);
      EntryDiscountBounded(cats[|cats| - 1], prices, table);
    }
  }

  /** One entry's discount lies between 0 and the undiscounted price of its tickets. */
  lemma EntryDiscountBounded(e: CategoryEntry, prices: map<string, real>, table: seq<DiscountRow>)
    requires forall b :: b in prices ==> prices[b] >= 0.0
    requires forall i :: 0 <= i < |table| ==> 0.0 <= table[i].discountPercentage <= 100.0
    ensures 0.0 <= EntryDiscount(e, prices, table) <= EntryValue(e, prices)
  {
    if Purchased(e.selection) {
      var price := BandPrice(prices, e.selection.band);
      var q := e.selection.qty as real;
      var d := 0.0;
      if DiscountTypeOf(e.key).Some? {
        var pct := GetDiscountPercentage(table, DiscountTypeOf(e.key).value);
        PercentageInRange(table, DiscountTypeOf(e.key).value);
        CalculateDiscountRates(price, pct);
        d := CalculateDiscount(price, pct);
      }
      ScaleByQuantity(EntryDiscount(e, prices, table), EntryValue(e, prices), d, price, q);
    }
  }

  /** A discount of at most the price, scaled by a non-negative quantity, stays at most the scaled price. */
  lemma ScaleByQuantity(discount: real, value: real, d: real, price: real, q: real)
    requires discount == d * q && value == price * q
    requires 0.0 <= d <= price && 0.0 <= q
    ensures 0.0 <= discount <= value
  {
    assert (price - d) * q >= 0.0;
  }

  /**
   * A worked booking: two adults and one child in a band priced 10, with a
   * 25% children's discount and a base total of 30, pay 27.5 after a
   * discount of 2.5.
   */
  lemma WorkedExample(table: seq<DiscountRow>)
    requires table == [DiscountRow("Children", 25.0)]
    ensures var cats := [CategoryEntry("adults", Selection("Band1", 2)), CategoryEntry("children", Selection("Band1", 1))];
            TicketCount(cats) == 3 &&
            PriceBooking(cats, map["Band1" := 10.0], table, 30.0) == Quote(2.5, 27.5)
  {
    var cats := [CategoryEntry("adults", Selection("Band1", 2)), CategoryEntry("children", Selection("Band1", 1))];
    var prices := map["Band1" := 10.0];
    assert cats[..1][..0] == [];
    assert CategoryDiscount(cats[..1], prices, table) == 0.0;
    assert GetDiscountPercentage(table, "Children") == 25.0;
    assert EntryDiscount(cats[1], prices, table) == 2.5;
    assert CategoryDiscount(cats, prices, table) == 2.5;
  }
}
