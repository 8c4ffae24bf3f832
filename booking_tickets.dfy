/**
 * The ticket half of completing a booking: one ticket row per purchased
 * seat, carrying the booking id, a seat number drawn at random from 1..100
 * and the category's undiscounted band price.
 */
module BookingTickets {
  import opened BookingPricing

  /** One row of the Ticket table; the seat label "Seat n" is kept as its number n. */
  datatype TicketRow = TicketRow(bookingId: nat, seatNumber: int, price: real)

  /** Seats are numbered 1 to SeatCount. */
  const SeatCount: int := 100

  /** Values a uniform random source in [0, 1) can produce; draw p chooses the seat of ticket p. */
  predicate ValidDraws(draws: seq<real>)
  {
    forall i :: 0 <= i < |draws| ==> 0.0 <= draws[i] < 1.0
  }

  /** The seat number chosen by one random draw; nothing makes seats distinct. */
  function SeatNumber(draw: real): (seat: int)
    ensures 0.0 <= draw < 1.0 ==> 1 <= seat <= SeatCount
  {
    (draw * 100.0).Floor + 1
  }

  /** The `count` tickets of one category, at `price`, seated by the draws from position `lo` on. */
  function CategoryTickets(bookingId: nat, price: real, draws: seq<real>, lo: nat, count: nat): (rows: seq<TicketRow>)
    requires lo + count <= |draws|
    ensures |rows| == count
  {
    if count == 0 then []
    else CategoryTickets(bookingId, price, draws, lo, count - 1) +
         [TicketRow(bookingId, SeatNumber(draws[lo + count - 1]), price)]
  }

  /** Row k of a category's tickets is seated by draw lo + k. */
  lemma {:induction false} CategoryTicketsAt(bookingId: nat, price: real, draws: seq<real>, lo: nat, count: nat, k: nat)
    requires lo + count <= |draws| && k < count
    ensures CategoryTickets(bookingId, price, draws, lo, count)[k] == TicketRow(bookingId, SeatNumber(draws[lo + k]), price)
    decreases count
  {
    if k < count - 1 {
      CategoryTicketsAt(bookingId, price, draws, lo, count - 1, k);
    }
  }

  /**
   * The ticket rows of a booking: one row per purchased seat, category
   * after category, ticket p seated by draw p.
   */
  function TicketRows(bookingId: nat, cats: seq<CategoryEntry>, prices: map<string, real>,
                      draws: seq<real>): (rows: seq<TicketRow>)
    requires TicketCount(cats) <= |draws|
    ensures |rows| == TicketCount(cats)
    decreases |cats|
  {
    if cats == [] then []
    else
      var init := cats[..|cats| - 1];
      var e := cats[|cats| - 1];
      TicketRows(bookingId, init, prices, draws) +
      (if Purchased(e.selection)
       then CategoryTickets(bookingId, BandPrice(prices, e.selection.band), draws, TicketCount(init), e.selection.qty)
       else [])
  }

  /** The prefix of a category list never holds more tickets than the whole list. */
  lemma {:induction false} TicketCountPrefix(cats: seq<CategoryEntry>, k: nat)
    requires k <= |cats|
    ensures TicketCount(cats[..k]) <= TicketCount(cats)
    decreases |cats|
  {
    if k < |cats| {
      assert cats[..|cats| - 1][..k] == cats[..k];
      TicketCountPrefix(cats[..|cats| - 1], k);
    } else {
      assert cats[..k] == cats;
    }
  }

  /** Every ticket row carries the booking id and the seat of its own draw, so a seat number in 1..100. */
  lemma {:induction false} TicketRowFields(bookingId: nat, cats: seq<CategoryEntry>, prices: map<string, real>,
                                           draws: seq<real>, p: nat)
    requires |draws| == TicketCount(cats) && ValidDraws(draws) && p < |draws|
    ensures TicketRows(bookingId, cats, prices, draws)[p].bookingId == bookingId
    ensures TicketRows(bookingId, cats, prices, draws)[p].seatNumber == SeatNumber(draws[p])
    ensures 1 <= TicketRows(bookingId, cats, prices, draws)[p].seatNumber <= SeatCount
  {
    TicketRowAt(bookingId, cats, prices, draws, p);
  }

  lemma {:induction false} TicketRowAt(bookingId: nat, cats: seq<CategoryEntry>, prices: map<string, real>,
                                       draws: seq<real>, p: nat)
    requires TicketCount(cats) <= |draws| && p < TicketCount(cats)
    ensures TicketRows(bookingId, cats, prices, draws)[p].bookingId == bookingId
    ensures TicketRows(bookingId, cats, prices, draws)[p].seatNumber == SeatNumber(draws[p])
    decreases |cats|
  {
    var init := cats[..|cats| - 1];
    var e := cats[|cats| - 1];
    var n := TicketCount(init);
    if p < n {
      TicketRowAt(bookingId, init, prices, draws, p);
    } else {
      CategoryTicketsAt(bookingId, BandPrice(prices, e.selection.band), draws, n, e.selection.qty, p - n);
    }
  }

  /** Every ticket row of a booking names that booking. */
  lemma TicketRowsBelongTo(bookingId: nat, cats: seq<CategoryEntry>, prices: map<string, real>, draws: seq<real>)
    requires TicketCount(cats) <= |draws|
    ensures forall p :: 0 <= p < TicketCount(cats) ==> TicketRows(bookingId, cats, prices, draws)[p].bookingId == bookingId
  {
    forall p | 0 <= p < TicketCount(cats)
      ensures TicketRows(bookingId, cats, prices, draws)[p].bookingId == bookingId
    {
      TicketRowAt(bookingId, cats, prices, draws, p);
    }
  }

  /**
   * The rows of entry j occupy positions TicketCount(cats[..j]) up to
   * TicketCount(cats[..j + 1]); each of them carries the entry's
   * undiscounted band price, and only a purchased entry has any.
   */
  lemma {:induction false} TicketRowPrices(bookingId: nat, cats: seq<CategoryEntry>, prices: map<string, real>,
                                           draws: seq<real>, j: nat, p: nat)
    requires TicketCount(cats) <= |draws|
    requires j < |cats| && TicketCount(cats[..j]) <= p < TicketCount(cats[..j + 1])
    ensures Purchased(cats[j].selection)
    ensures p < TicketCount(cats)
    ensures TicketRows(bookingId, cats, prices, draws)[p].price == BandPrice(prices, cats[j].selection.band)
    decreases |cats|
  {
    assert cats[..j + 1][..j] == cats[..j];
    TicketCountPrefix(cats, j + 1);
    var init := cats[..|cats| - 1];
    var n := TicketCount(init);
    if j == |cats| - 1 {
      assert cats[..j] == init && cats[..j + 1] == cats;
      CategoryTicketsAt(bookingId, BandPrice(prices, cats[j].selection.band), draws, n, cats[j].selection.qty, p - n);
    } else {
      assert init[..j] == cats[..j] && init[..j + 1] == cats[..j + 1];
      TicketRowPrices(bookingId, init, prices, draws, j, p);
    }
  }

  /** Sum of the prices of some ticket rows. */
  function SumPrices(rows: seq<TicketRow>): real
  {
    if rows == [] then 0.0 else SumPrices(rows[..|rows| - 1]) + rows[|rows| - 1].price
  }

  lemma {:induction false} SumPricesAppend(a: seq<TicketRow>, b: seq<TicketRow>)
    ensures SumPrices(a + b) == SumPrices(a) + SumPrices(b)
    decreases |b|
  {
    if b == [] {
      assert a + b == a;
    } else {
      assert (a + b)[..|a + b| - 1] == a + b[..|b| - 1];
      SumPricesAppend(a, b[..|b| - 1]);
    }
  }

  lemma {:induction false} CategoryTicketsSum(bookingId: nat, price: real, draws: seq<real>, lo: nat, count: nat)
    requires lo + count <= |draws|
    ensures SumPrices(CategoryTickets(bookingId, price, draws, lo, count)) == price * count as real
    decreases count
  {
    if count > 0 {
      var rows := CategoryTickets(bookingId, price, draws, lo, count);
      assert rows[..|rows| - 1] == CategoryTickets(bookingId, price, draws, lo, count - 1);
      CategoryTicketsSum(bookingId, price, draws, lo, count - 1);
    }
  }

  /** The tickets of one purchased entry are worth the entry's undiscounted value. */
  lemma EntryTicketsSum(bookingId: nat, e: CategoryEntry, prices: map<string, real>, draws: seq<real>, lo: nat)
    requires Purchased(e.selection) && lo + e.selection.qty <= |draws|
    ensures SumPrices(CategoryTickets(bookingId, BandPrice(prices, e.selection.band), draws, lo, e.selection.qty))
            == EntryValue(e, prices)
  {
    CategoryTicketsSum(bookingId, BandPrice(prices, e.selection.band), draws, lo, e.selection.qty);
  }

  /**
   * The ticket prices add up to the undiscounted value of the booking,
   * not to its discounted total: tickets are stored at band price.
   */
  lemma {:induction false} TicketPricesAreUndiscounted(bookingId: nat, cats: seq<CategoryEntry>,
                                                      prices: map<string, real>, draws: seq<real>)
    requires TicketCount(cats) <= |draws|
    ensures SumPrices(TicketRows(bookingId, cats, prices, draws)) == UndiscountedValue(cats, prices)
    decreases |cats|
  {
    if cats != [] {
      var init := cats[..|cats| - 1];
      var e := cats[|cats| - 1];
      var n := TicketCount(init);
      TicketPricesAreUndiscounted(bookingId, init, prices, draws);
      var head := TicketRows(bookingId, init, prices, draws);
      if Purchased(e.selection) {
        var tail := CategoryTickets(bookingId, BandPrice(prices, e.selection.band), draws, n, e.selection.qty);
        assert TicketRows(bookingId, cats, prices, draws) == head + tail;
        SumPricesAppend(head, tail);
        EntryTicketsSum(bookingId, e, prices, draws, n);
      } else {
        assert TicketRows(bookingId, cats, prices, draws) == head + [];
        assert head + [] == head;
      }
    }
  }

  /** The rows of the first c + 1 entries extend those of the first c entries by entry c's rows. */
  lemma TicketRowsStep(bookingId: nat, cats: seq<CategoryEntry>, prices: map<string, real>, draws: seq<real>, c: nat)
    requires TicketCount(cats) <= |draws| && c < |cats|
    ensures TicketCount(cats[..c]) + EntryTickets(cats[c]) == TicketCount(cats[..c + 1]) <= TicketCount(cats)
    ensures !Purchased(cats[c].selection) ==>
              TicketRows(bookingId, cats[..c + 1], prices, draws) == TicketRows(bookingId, cats[..c], prices, draws)
    ensures Purchased(cats[c].selection) ==>
              TicketRows(bookingId, cats[..c + 1], prices, draws) ==
                TicketRows(bookingId, cats[..c], prices, draws) +
                CategoryTickets(bookingId, BandPrice(prices, cats[c].selection.band), draws,
                                TicketCount(cats[..c]), cats[c].selection.qty)
  {
    assert cats[..c + 1][..c] == cats[..c];
    TicketCountPrefix(cats, c + 1);
    var rows := TicketRows(bookingId, cats[..c], prices, draws);
    assert rows + [] == rows;
  }

  /**
   * The inner ticket loop of the booking handler: push `qty` tickets at
   * `price`, the seat of each chosen by the draw at its position in the list.
   */
  method PushCategoryTickets(tickets: seq<TicketRow>, bookingId: nat, price: real, draws: seq<real>, qty: nat)
    returns (pushed: seq<TicketRow>)
    requires |tickets| + qty <= |draws|
    ensures pushed == tickets + CategoryTickets(bookingId, price, draws, |tickets|, qty)
  {
    pushed := tickets;
    var n := |tickets|;
    assert pushed == tickets + CategoryTickets(bookingId, price, draws, n, 0);
    for i := 0 to qty
      invariant pushed == tickets + CategoryTickets(bookingId, price, draws, n, i)
    {
      var randomSeatNumber := SeatNumber(draws[n + i]);
      ghost var sofar := CategoryTickets(bookingId, price, draws, n, i);
      assert pushed + [TicketRow(bookingId, randomSeatNumber, price)] ==
             tickets + (sofar + [TicketRow(bookingId, randomSeatNumber, price)]);
      pushed := pushed + [TicketRow(bookingId, randomSeatNumber, price)];
    }
  }

  /** The ticket-building loops of the booking handler. */
  method BuildTickets(bookingId: nat, cats: seq<CategoryEntry>, prices: map<string, real>, draws: seq<real>)
    returns (tickets: seq<TicketRow>)
    requires |draws| == TicketCount(cats)
    ensures tickets == TicketRows(bookingId, cats, prices, draws)
  {
    tickets := [];
    for c := 0 to |cats|
      invariant TicketCount(cats[..c]) <= TicketCount(cats)
      invariant tickets == TicketRows(bookingId, cats[..c], prices, draws)
    {
      TicketRowsStep(bookingId, cats, prices, draws, c);
      var e := cats[c];
      if e.selection.band == "" || e.selection.qty <= 0 {
        continue;
      }
      var ticketPrice := BandPrice(prices, e.selection.band);
      tickets := PushCategoryTickets(tickets, bookingId, ticketPrice, draws, e.selection.qty);
    }
    assert cats[..|cats|] == cats;
  }
}
