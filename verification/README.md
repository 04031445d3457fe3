# Cinema ticket system (singleton) — Dafny model

This project models `CinemaTicketSystem`: the ticket office of a cinema with
one screen and ten seats. Box offices and an online channel share one ticket
system, which they obtain through the lazily created singleton
(`getInstance`). `sellTicket` refuses a sale when every seat is taken.
Otherwise it appends the customer's name to the book-keeping list and counts
one more sold seat.

The model lives in `cinema.dfy`, module `Cinema`, in two layers:

- A pure state machine. `TicketState` holds the capacity, the sold-seat
  counter and the customer log. `Sell` is one sale attempt. `SellAll` and
  `Outcomes` give the final state and the reported outcomes after any sequence
  of attempts. `Consistent` is the invariant: the counter stays within capacity
  and equals the length of the log. The lemmas prove what holds after any
  sequence of sales.
- The imperative class `CinemaTicketSystem`. It has the fields `maxSeats`
  (constant 10), `soldSeats` and `bookKeeping`. Its `SellTicket` updates them in
  place and is proved to follow `Sell` step by step. Class `Companion` stands for
  the Kotlin companion object. Its nullable `instance` field is what
  `GetInstance` fills on the first call.

The Kotlin `sellTicket` returns nothing and reports through console messages.
The model returns those messages as a value instead. `Sold(available)` is the
"one ticket sold, available seats: n" message. `FullyBooked` is the "fully
booked" message.

## Model

| member | source | states |
|---|---|---|
| `Cinema.Sell` | CinemaTicketSystem.kt:37-50 | a sale is refused exactly when `soldSeats >= maxSeats`, and a refusal leaves the state unchanged; an accepted sale keeps every earlier log entry in order, puts the customer at the end, adds exactly one sold seat and reports `maxSeats - soldSeats` available seats; from a consistent state the result is consistent and the reported count is never negative |
| `Cinema.Outcomes` | CinemaTicketSystem.kt:37-50 | a sequence of sale attempts reports exactly one outcome per attempt |
| `Cinema.SellAllLogsFirstCustomers` | CinemaTicketSystem.kt:31-50 | after any sequence of sale attempts from a consistent state, the log is the old log followed by exactly the first customers that fit in the free seats, in call order and without deduplication, and the counter grew by that many |
| `Cinema.SellAllKeepsConsistent` | CinemaTicketSystem.kt:28-50 | no sequence of sale attempts oversells: `soldSeats` stays between 0 and `maxSeats` and equal to the length of `bookKeeping` |
| `Cinema.OutcomeAt` | CinemaTicketSystem.kt:39-48 | the i-th attempt is accepted exactly when a seat is left before it, and then reports `maxSeats - soldSeats - i - 1` available seats (so the counts descend to 0); every later attempt reports fully booked |
| `Cinema.FullyBookedIsFinal` | CinemaTicketSystem.kt:39-40 | once every seat is sold, any further attempts leave the state unchanged and each one reports fully booked |
| `Cinema.NoDeduplication` | CinemaTicketSystem.kt:45-46 | selling twice to the same name while two seats are free logs the name twice and counts two seats |
| `Cinema.CinemaTicketSystem.constructor` | CinemaTicketSystem.kt:25-34 | a new system has capacity 10, no sold seats and an empty log, and satisfies the invariant |
| `Cinema.CinemaTicketSystem.SellTicket` | CinemaTicketSystem.kt:37-50 | keeps the invariant; the new fields and the outcome are those of `Sell` on the old fields; a refusal happens exactly when `soldSeats >= maxSeats` and changes nothing; a sale appends exactly the customer's name, adds one to `soldSeats` and reports a non-negative `maxSeats - soldSeats` |
| `Cinema.CinemaTicketSystem.Summary` | CinemaTicketSystem.kt:67-73 | the summary shows 10 total seats, a sold count between 0 and the total that equals the number of customers listed, and the customers in order of sale |
| `Cinema.Companion.constructor` | CinemaTicketSystem.kt:53-55 | before the first access there is no instance |
| `Cinema.Companion.GetInstance` | CinemaTicketSystem.kt:57-64 | creates a fresh, empty system only when no instance exists; otherwise returns the stored instance itself; in both cases the result is the stored instance and satisfies the invariant |
| `Cinema.BoxOfficeSales` | CinemaTicketSystem.kt:83-90 | both box offices obtain the same, newly created system, and after their four sales it holds Alice, Marie, Rosalind and Margaret |
| `Cinema.OnlineSales` | CinemaTicketSystem.kt:92-98 | the online channel obtains that same system; its six sales fill the cinema, the last one reports 0 available seats, and the log holds the ten customers in call order |
| `Cinema.RunDemo` | CinemaTicketSystem.kt:80-118 | in the demonstration the tenth sale reports 0 seats left, the late sale to Cemre is refused, the summary shows 10 of 10 seats sold to the ten customers in call order, and all three channels hold the identical instance |
| `Cinema.DemoScenario` | CinemaTicketSystem.kt:83-107 | in the pure model, the eleven demonstration attempts from a new system leave ten sold seats and the ten customers in order; the tenth reports 0 seats left and the eleventh reports fully booked |

## Left out

- Console output: the sale, refusal and summary messages and their text
  (CinemaTicketSystem.kt:40, 48, 69-72, 100-118) are not modelled. The sale
  outcome and the summary are returned as values instead.
- Printing the object addresses in the demonstration (CinemaTicketSystem.kt:113-116)
  is not modelled. Instance identity is the `sameInstance` result of `RunDemo`.
- The `TicketOffice` interface (CinemaTicketSystem.kt:10-14) is not modelled. It is
  a one-method signature with no behaviour, and `SellTicket` stands for its
  implementation.
- Concurrency is not modelled. That covers the unsynchronised check-then-create
  in `getInstance` and the unsynchronised update in `sellTicket`. The source is
  single-threaded, and the model is sequential.
- Sales channels and pricing are not modelled because the source has neither.
- Kotlin's 32-bit `Int` wrap-around is not modelled. `soldSeats` never exceeds
  10, so it cannot occur.
- Cinema.Companion.GetInstance: the companion object is global state in the
  source. Here it is an explicit `Companion` object, so "one instance per
  process" is stated per `Companion`.
- Cinema.CinemaTicketSystem.constructor: the Kotlin constructor is private
  (CinemaTicketSystem.kt:25), so `getInstance` is the only way to obtain a
  system. Dafny cannot hide a constructor here, so other code could create a
  second system. Uniqueness is proved only for systems obtained through
  `Companion.GetInstance`.
- Cinema.BoxOfficeSales, Cinema.OnlineSales: the demonstration `main` is one
  function in the source. The model splits it into three methods along the
  sales channels so that each proof stays small.
