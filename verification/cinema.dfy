/*
 * A cinema with one screen and a fixed number of seats, sold through a single
 * shared ticket system (the singleton pattern). The seat counter and the
 * customer log of `CinemaTicketSystem` are modelled twice: as a pure state
 * machine (`TicketState`, `Sell`, `SellAll`) on which the properties of any
 * sequence of sales are proved, and as a class whose `SellTicket` method
 * updates its fields in place and is proved to follow `Sell`.
 */
module Cinema {

  /** Number of seats in the cinema; the system never sells more. */
  const MaxSeats: int := 10

  /** What a sale attempt reports: a sold ticket with the seats still available, or a full house. */
  datatype SaleOutcome = Sold(available: int) | FullyBooked

  /** The state of the ticket system: capacity, seats sold, and the customers in order of sale. */
  datatype TicketState = TicketState(maxSeats: int, soldSeats: int, bookKeeping: seq<string>)

  /** What the summary shows: total seats, sold seats and the customer list. */
  datatype TicketSummary = TicketSummary(totalSeats: int, soldSeats: int, customers: seq<string>)

  /** The counter never exceeds the capacity and always equals the length of the log. */
  predicate Consistent(s: TicketState)
  {
    0 <= s.soldSeats <= s.maxSeats && s.soldSeats == |s.bookKeeping|
  }

  /** The state of a newly created ticket system: nothing sold yet. */
  function Opening(): TicketState
  {
    TicketState(MaxSeats, 0, [])
  }

  function Min(a: int, b: int): int
  {
    if a <= b then a else b
  }

  /**
   * One sale attempt: refused when every seat is taken, otherwise the customer
   * is logged at the end and one more seat is counted as sold.
   */
  function Sell(s: TicketState, customerName: string): (r: (TicketState, SaleOutcome))
    ensures r.1 == FullyBooked <==> s.soldSeats >= s.maxSeats
    ensures r.1 == FullyBooked ==> r.0 == s
    ensures r.1.Sold? ==>
              r.0.maxSeats == s.maxSeats &&
              r.0.soldSeats == s.soldSeats + 1 &&
              |r.0.bookKeeping| == |s.bookKeeping| + 1 &&
              r.0.bookKeeping[..|s.bookKeeping|] == s.bookKeeping &&
              r.0.bookKeeping[|s.bookKeeping|] == customerName &&
              r.1.available == r.0.maxSeats - r.0.soldSeats
    ensures Consistent(s) ==> Consistent(r.0) && (r.1.Sold? ==> r.1.available >= 0)
  {
    if s.soldSeats >= s.maxSeats then
      (s, FullyBooked)
    else
      var next := TicketState(s.maxSeats, s.soldSeats + 1, s.bookKeeping + [customerName]);
      (next, Sold(next.maxSeats - next.soldSeats))
  }

  /** The state after the sale attempts `customers`, made one after another in order. */
  function SellAll(s: TicketState, customers: seq<string>): TicketState
    decreases |customers|
  {
    if customers == [] then s else SellAll(Sell(s, customers[0]).0, customers[1..])
  }

  /** What each of the sale attempts `customers` reports, in order. */
  function Outcomes(s: TicketState, customers: seq<string>): (r: seq<SaleOutcome>)
    ensures |r| == |customers|
    decreases |customers|
  {
    if customers == [] then []
    else
      var (next, outcome) := Sell(s, customers[0]);
      [outcome] + Outcomes(next, customers[1..])
  }

  /**
   * After any sequence of sale attempts, exactly the first customers that fit
   * in the remaining seats have been logged, in call order, with no
   * deduplication, and the counter has grown by that many.
   */
  lemma {:induction false} SellAllLogsFirstCustomers(s: TicketState, customers: seq<string>)
    requires Consistent(s)
    ensures var k := Min(|customers|, s.maxSeats - s.soldSeats);
            SellAll(s, customers) ==
              TicketState(s.maxSeats, s.soldSeats + k, s.bookKeeping + customers[..k])
    decreases |customers|
  {
    if customers != [] {
      var next := Sell(s, customers[0]).0;
      var rest := customers[1..];
      SellAllLogsFirstCustomers(next, rest);
      assert SellAll(s, customers) == SellAll(next, rest);
      if s.soldSeats < s.maxSeats {
        var k := Min(|customers|, s.maxSeats - s.soldSeats);
        assert Min(|rest|, next.maxSeats - next.soldSeats) == k - 1;
        calc {
          next.bookKeeping + rest[..k - 1];
          (s.bookKeeping + [customers[0]]) + rest[..k - 1];
          { assert [customers[0]] + rest[..k - 1] == customers[..k]; }
          s.bookKeeping + customers[..k];
        }
      }
    }
  }

  /** No sequence of sale attempts oversells: the counter stays within capacity and in step with the log. */
  lemma {:induction false} SellAllKeepsConsistent(s: TicketState, customers: seq<string>)
    requires Consistent(s)
    ensures Consistent(SellAll(s, customers))
    ensures SellAll(s, customers).soldSeats <= s.maxSeats
  {
    SellAllLogsFirstCustomers(s, customers);
  }

  /**
   * The i-th sale attempt is accepted exactly when a seat is left before it,
   * and then reports one seat fewer than the attempt before; afterwards every
   * attempt is refused.
   */
  lemma {:induction false} OutcomeAt(s: TicketState, customers: seq<string>, i: int)
    requires Consistent(s)
    requires 0 <= i < |customers|
    ensures |Outcomes(s, customers)| == |customers|
    ensures Outcomes(s, customers)[i] ==
              if s.soldSeats + i < s.maxSeats then Sold(s.maxSeats - s.soldSeats - i - 1)
              else FullyBooked
    decreases |customers|
  {
    if i > 0 {
      OutcomeAt(Sell(s, customers[0]).0, customers[1..], i - 1);
    }
  }

  /** Once the cinema is fully booked, further sale attempts change nothing. */
  lemma {:induction false} FullyBookedIsFinal(s: TicketState, customers: seq<string>)
    requires Consistent(s) && s.soldSeats == s.maxSeats
    ensures SellAll(s, customers) == s
    ensures forall i :: 0 <= i < |customers| ==> Outcomes(s, customers)[i] == FullyBooked
  {
    SellAllLogsFirstCustomers(s, customers);
    assert customers[..0] == [];
    forall i | 0 <= i < |customers|
      ensures Outcomes(s, customers)[i] == FullyBooked
    {
      OutcomeAt(s, customers, i);
    }
  }

  /** Selling twice to the same name while two seats remain logs the name twice. */
  lemma NoDeduplication(s: TicketState, customerName: string)
    requires Consistent(s) && s.soldSeats + 2 <= s.maxSeats
    ensures SellAll(s, [customerName, customerName]).bookKeeping ==
              s.bookKeeping + [customerName, customerName]
    ensures SellAll(s, [customerName, customerName]).soldSeats == s.soldSeats + 2
  {
    SellAllLogsFirstCustomers(s, [customerName, customerName]);
  }

  /** The ticket system: a seat counter with an append-only log of customers. */
  class CinemaTicketSystem {
    const maxSeats: int := MaxSeats
    var soldSeats: int
    var bookKeeping: seq<string>

    ghost predicate Valid()
      reads this
    {
      Consistent(State())
    }

    /** The fields seen as a value of the pure model. */
    function State(): TicketState
      reads this
    {
      TicketState(maxSeats, soldSeats, bookKeeping)
    }

    constructor ()
      ensures Valid()
      ensures State() == Opening()
    {
      soldSeats := 0;
      bookKeeping := [];
    }

    /**
     * Sells one ticket to `customerName` if a seat is left. A refusal leaves
     * the state as it was; a sale appends the name and counts the seat.
     */
    method SellTicket(customerName: string) returns (outcome: SaleOutcome)
      requires Valid()
      modifies this
      ensures Valid()
      ensures (State(), outcome) == Sell(old(State()), customerName)
      ensures outcome == FullyBooked <==> old(soldSeats) >= maxSeats
      ensures outcome == FullyBooked ==>
                soldSeats == old(soldSeats) && bookKeeping == old(bookKeeping)
      ensures outcome.Sold? ==>
                soldSeats == old(soldSeats) + 1 &&
                bookKeeping == old(bookKeeping) + [customerName] &&
                outcome.available == maxSeats - soldSeats >= 0
    {
      if soldSeats >= maxSeats {
        outcome := FullyBooked;
      } else {
        bookKeeping := bookKeeping + [customerName];
        soldSeats := soldSeats + 1;
        outcome := Sold(maxSeats - soldSeats);
      }
    }

    /** A snapshot of the sales: capacity, seats sold and the customers in order of sale. */
    function Summary(): (r: TicketSummary)
      reads this
      requires Valid()
      ensures r.totalSeats == MaxSeats
      ensures 0 <= r.soldSeats <= r.totalSeats
      ensures r.soldSeats == |r.customers|
      ensures r.customers == bookKeeping
    {
      TicketSummary(maxSeats, soldSeats, bookKeeping)
    }
  }

  /** The companion object: holds the one shared ticket system once it exists. */
  class Companion {
    var instance: CinemaTicketSystem?

    ghost predicate Valid()
      reads this, instance
    {
      instance != null ==> instance.Valid()
    }

    constructor ()
      ensures Valid()
      ensures instance == null
    {
      instance := null;
    }

    /**
     * Creates the ticket system on the first call only; every call returns the
     * instance that is stored from then on.
     */
    method GetInstance() returns (r: CinemaTicketSystem)
      requires Valid()
      modifies this
      ensures Valid() && r.Valid()
      ensures instance == r
      ensures old(instance) != null ==> r == old(instance)
      ensures old(instance) == null ==> fresh(r) && r.State() == Opening()
    {
      if instance == null {
        instance := new CinemaTicketSystem();
      }
      r := instance;
    }
  }

  /** The customers of the demonstration, in the order their tickets are requested. */
  function DemoCustomers(): seq<string>
  {
    ["Alice", "Marie", "Rosalind", "Margaret",
     "Tinky Winky", "Homer", "Marge", "Bart", "Lisa", "Maggie"]
  }

  /** The first part of the demonstration: both box offices obtain the system and sell four tickets. */
  method BoxOfficeSales(companion: Companion) returns (boxOffice1: CinemaTicketSystem, boxOffice2: CinemaTicketSystem)
    requires companion.Valid() && companion.instance == null
    modifies companion
    ensures companion.Valid() && fresh(boxOffice1)
    ensures boxOffice1 == boxOffice2 == companion.instance
    ensures boxOffice1.State() == TicketState(MaxSeats, 4, ["Alice", "Marie", "Rosalind", "Margaret"])
  {
    var o: SaleOutcome;
    boxOffice1 := companion.GetInstance();
    o := boxOffice1.SellTicket("Alice");
    assert o == Sold(9);

    boxOffice2 := companion.GetInstance();
    o := boxOffice2.SellTicket("Marie");
    assert o == Sold(8);
    o := boxOffice2.SellTicket("Rosalind");
    assert o == Sold(7);
    o := boxOffice2.SellTicket("Margaret");
    assert o == Sold(6);
  }

  /** The second part of the demonstration: the online channel obtains the system and sells the last six seats. */
  method OnlineSales(companion: Companion) returns (onlineSales: CinemaTicketSystem, lastSale: SaleOutcome)
    requires companion.Valid() && companion.instance != null
    requires companion.instance.State() ==
               TicketState(MaxSeats, 4, ["Alice", "Marie", "Rosalind", "Margaret"])
    modifies companion, companion.instance
    ensures companion.Valid() && onlineSales == companion.instance == old(companion.instance)
    ensures onlineSales.State() == TicketState(MaxSeats, MaxSeats, DemoCustomers())
    ensures lastSale == Sold(0)
  {
    var o: SaleOutcome;
    onlineSales := companion.GetInstance();
    o := onlineSales.SellTicket("Tinky Winky");
    assert o == Sold(5);
    o := onlineSales.SellTicket("Homer");
    assert o == Sold(4);
    o := onlineSales.SellTicket("Marge");
    assert o == Sold(3);
    o := onlineSales.SellTicket("Bart");
    assert o == Sold(2);
    o := onlineSales.SellTicket("Lisa");
    assert o == Sold(1);
    lastSale := onlineSales.SellTicket("Maggie");
  }

  /**
   * The demonstration: two box offices and an online channel obtain the shared
   * ticket system and sell ten tickets, the last of which leaves no seat; a
   * late eleventh request at the second box office is refused. All three
   * channels hold the same system.
   */
  method RunDemo() returns (lastSale: SaleOutcome, lateSale: SaleOutcome,
                            summary: TicketSummary, sameInstance: bool)
    ensures lastSale == Sold(0)
    ensures lateSale == FullyBooked
    ensures summary == TicketSummary(10, 10, DemoCustomers())
    ensures sameInstance
  {
    var companion := new Companion();
    var boxOffice1, boxOffice2 := BoxOfficeSales(companion);
    var onlineSales;
    onlineSales, lastSale := OnlineSales(companion);
    lateSale := boxOffice2.SellTicket("Cemre");
    summary := onlineSales.Summary();
    sameInstance := boxOffice1 == boxOffice2 && boxOffice1 == onlineSales;
  }

  /** The demonstration as a fold over the pure model gives the same outcomes and final log. */
  lemma DemoScenario()
    ensures SellAll(Opening(), DemoCustomers() + ["Cemre"]) ==
              TicketState(MaxSeats, MaxSeats, DemoCustomers())
    ensures Outcomes(Opening(), DemoCustomers() + ["Cemre"])[9] == Sold(0)
    ensures Outcomes(Opening(), DemoCustomers() + ["Cemre"])[10] == FullyBooked
  {
    var all := DemoCustomers() + ["Cemre"];
    SellAllLogsFirstCustomers(Opening(), all);
    assert all[..10] == DemoCustomers();
    OutcomeAt(Opening(), all, 9);
    OutcomeAt(Opening(), all, 10);
  }
}
