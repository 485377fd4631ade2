# Parking tickets: fee model and ticket store

A Dafny model of the accounting core of a small parking service written in Go.
A ticket is issued with a time in. The amount owed grows in tiers with the time
parked. A payment records the amount owed at that moment and the card token given.

- `go_ints.dfy` (module `GoInts`): the Go integer semantics the code relies on.
  This covers `int64`/`uint64` and the two's complement conversions between them,
  and division and remainder truncated toward zero.
- `ticket.dfy` (module `Tickets`) models `ticket.go`.
  - The `Ticket` record and the base rate of 300 cents.
  - `increaseRate` is a method with its counting loop, proved against the
    recursive specification `Compounded`.
  - `CalculateOwing` is a function of the ticket and a clock reading `now`.
    It works on Go's `Duration` (nanoseconds). `Duration.Hours()` is read
    exactly, as whole hours plus a remainder below one hour. Lemmas show that
    `hours > k` and `hours < k` are the same as comparing the duration with
    `k` hours. `time.Since` is `Sub(now, timeIn)`, which saturates as Go's
    `Time.Sub` does.
  - The dollar string `ShowOwing` returns.
- `ticket_store.dfy` (module `Store`) models `ticket-store.go`.
  - `itob` is the 8-byte big-endian encoding of `uint64(id)`.
  - `TicketStore` is a class. It holds the "Tickets" bucket as a
    `map<Key, Ticket>` and the bucket's `uint64` sequence counter.
  - `Create`, `Find`, `Save` and `Pay` are methods over that state.
  - `Lookup` is a pure function giving what `Find` reports. The lemmas relating
    several operations are stated with it.

Behaviour of the code that the model keeps:
- New tickets are backdated by 350 minutes. So a ticket just created already owes
  the two-increase amount (`NewTicketOwing`).
- A ticket counts as "not found" when the decoded ticket has id 0. That covers a
  missing key and also a stored ticket whose id is 0.
- `Pay` panics through `checkError` when the ticket cannot be found. It does not
  return the error. It is modelled as the outcome `Panicked(id)` with the store
  unchanged. The not-found branch of the HTTP handler after `Pay`
  (main.go:123-126) is therefore never taken for a missing ticket. It is reached
  only when `Save` fails, which the model leaves out (see store failures under
  "Left out").
- `Pay` does not set `TimePaid`. It does not refuse a ticket that is already paid:
  paying again overwrites the amount and the card (`RepayOverwrites`).
- The sequence counter is a `uint64` that `NextSequence` increments with
  wrap-around. The id is `int64(sequence)`. So ids increase strictly only while the
  counter is below 2^63 - 1.
- A newly created key is fresh only while every key in the bucket is one the
  counter has already issued (`IssuedOnly`). `Create` keeps that invariant while
  the counter is below its largest value, and `Pay` always keeps it. `Save` is
  public and may write any id, and then the invariant can break. `Create`'s
  freshness guarantee is stated under both conditions.
- Once the counter wraps past its largest value, the next id is 0, which `Find`
  never reports, and then 1, 2, … again. Those keys were issued before, and `Put`
  overwrites the tickets stored there (ticket-store.go:58-64). The model states
  nothing about `Create`'s freshness or the following `Find` after the wrap.

## Model

| member | source | states |
|---|---|---|
| GoInts.Uint64Of | ticket-store.go:14 | `uint64(v)` agrees with v modulo 2^64 and is below 2^63 exactly when v is non-negative |
| GoInts.Int64Of | ticket-store.go:59 | `int64(u)` agrees with u modulo 2^64, is non-negative exactly when u is below 2^63, and converting back to `uint64` gives u |
| GoInts.Int64RoundTrip | ticket-store.go:14 | reading an `int64` as `uint64` and back returns it unchanged |
| GoInts.GoDivision | ticket.go:23 | Go's truncating quotient and remainder satisfy `a == b*q + r`; the remainder has the dividend's sign and is smaller than the divisor in magnitude; negating the dividend negates both |
| Tickets.Increase | ticket.go:23-24 | one loop pass multiplies by 3/2 with the half truncated toward zero: `3o-1 <= 2r <= 3o` for non-negative o, mirrored for negative o |
| Tickets.IncreaseRate | ticket.go:21-28 | the loop returns `Compounded(owing, times)`, and a count of zero or less returns owing unchanged |
| Tickets.CompoundedStep | ticket.go:22-25 | n+1 passes are one more truncating increase applied to the result of n passes |
| Tickets.CompoundedMonotone | ticket.go:22-25 | for a non-negative amount, more passes never give less, and never less than the amount |
| Tickets.CompoundedNegated | ticket.go:23 | under truncation toward zero a negative amount compounds as its magnitude does, with the sign flipped |
| Tickets.BaseRateSchedule | ticket.go:9-28 | from the 300-cent base rate, 0, 1, 2 and 3 increases give 300, 450, 675 and 1012 |
| Tickets.HoursAboveExactly | ticket.go:32-34 | `d.Hours() > k` holds exactly when d exceeds k hours |
| Tickets.HoursBelowExactly | ticket.go:34-38 | `d.Hours() < k` holds exactly when d is shorter than k hours |
| Tickets.OwingAfter | ticket.go:31-47 | the charge is always one of 300, 450, 675 and 1012 cents |
| Tickets.OwingTiers | ticket.go:34-46 | up to and including 1 hour (and any negative time) gives 300; strictly between 1 and 3 hours gives 450; 3 to 6 hours with both ends included gives 675; over 6 hours gives 1012 |
| Tickets.OwingMonotone | ticket.go:31-47 | a longer elapsed time never gives a smaller charge |
| Tickets.CalculateOwing | ticket.go:31-47 | a ticket's charge lies between the base rate and three increases of it |
| Tickets.Sub | ticket.go:32 | the elapsed time equals `now - timeIn` whenever that fits in a Duration; otherwise the body clamps to the Duration range, and the contract states that the result lies between 0 and the true difference and has its sign |
| Tickets.SubMonotone | ticket.go:32 | a later clock reading never gives a shorter saturated elapsed time |
| Tickets.CalculateOwingMonotone | ticket.go:31-47 | asking later never gives a smaller charge for the same ticket |
| Tickets.Digit | ticket.go:52 | the digit character denotes the given value |
| Tickets.Decimal | ticket.go:52 | the numeral is non-empty, all digits, without leading zero, and reads back as n |
| Tickets.FormatCents | ticket.go:50-53 | the string is `$`, dollar digits without a leading zero, `.` and two digits, and dollars*100 + cents read back the amount |
| Tickets.ShowOwing | ticket.go:50-53 | the string shown is `$`, dollar digits without a leading zero, `.` and two digits, reading back the charge at `now` |
| Tickets.ShownAmounts | ticket.go:52 | the four charges show as "$3.00", "$4.50", "$6.75" and "$10.12" |
| Store.BigEndianBytes | ticket-store.go:13-14 | the encoding of u has exactly n bytes |
| Store.BigEndianRoundTrip | ticket-store.go:14 | decoding n big-endian bytes of a number below 256^n gives the number back |
| Store.BigEndianDigit | ticket-store.go:14 | byte i of the encoding is the low byte of u shifted right by 8*(n-1-i) bits |
| Store.Itob | ticket-store.go:12-16 | the key has exactly 8 bytes and decodes big-endian to `uint64(v)` |
| Store.ItobShifts | ticket-store.go:14 | byte i of the key is `byte(uint64(v) >> (56 - 8i))`, most significant first |
| Store.ItobInjective | ticket-store.go:12-16 | equal keys come only from equal ids |
| Store.NextSequence | ticket-store.go:58 | the counter becomes `(sequence + 1) mod 2^64`: up by one, wrapping to 0 after the largest `uint64` |
| Store.Settle | ticket-store.go:113-114 | the paid ticket keeps id, time in and time paid; its amount is the charge at payment time (so it is positive); its card is the one given |
| Store.FoundCarriesId | ticket-store.go:78-90 | when every entry sits at its own id's key, a found ticket carries the id asked for |
| Store.ZeroNeverFound | ticket-store.go:86-88 | id 0 is never found |
| Store.FindAfterSave | ticket-store.go:94-103 | after saving a ticket with a non-zero id, finding that id returns the ticket |
| Store.SaveLeavesOthers | ticket-store.go:94-103 | saving a ticket leaves what Find reports for every other id unchanged |
| Store.SaveIdempotent | ticket-store.go:101 | saving the same ticket twice gives the state of saving it once |
| Store.CreateKeyFresh | ticket-store.go:58-64 | while the counter is below its maximum and all keys were issued, the next id's key is absent, and storing it keeps all keys issued |
| Store.NewTicketOwing | ticket-store.go:49-53 | a ticket owes 675 cents at the moment it is created, because of the 350-minute backdate |
| Store.FindAfterPay | ticket-store.go:107-116 | after Pay, Find returns the settled ticket |
| Store.PayKeepsIssued | ticket-store.go:113-116 | rewriting an existing entry keeps every key among the issued ones |
| Store.RepayOverwrites | ticket-store.go:113-114 | paying a paid ticket again gives what a single payment at the second time would give |
| Store.TicketStore.constructor | ticket-store.go:31-43 | a newly created bucket is empty with sequence 0, so the first id is 1 |
| Store.TicketStore.Create | ticket-store.go:47-70 | advances the sequence; the id is `int64` of the new value; time in is now minus 350 minutes; time paid unset, paid 0, card empty; stored at `itob(id)` and nothing else changes; the id exceeds the old sequence while below 2^63 - 1; while the counter is below its largest value, Find then returns the ticket, and the key was fresh and all keys stay issued when all keys were issued before |
| Store.TicketStore.Find | ticket-store.go:73-91 | returns `Lookup` of the current bucket and, having no modifies clause, changes nothing |
| Store.TicketStore.Save | ticket-store.go:94-104 | overwrites the entry at `itob(t.id)` unconditionally; every other entry and the sequence are unchanged |
| Store.TicketStore.Pay | ticket-store.go:107-117 | a found ticket is settled at `now` with the card and stored back under its key, and that settled ticket is returned; a missing one panics, leaving the store unchanged; the sequence never changes |

## Left out

- main.go: HTTP routing, handlers, request decoding, JSON rendering, flags, signal handling and server shutdown. These are adapters around the store.
- BoltDB: opening the database file, transactions, and creating the bucket in `NewTicketStore` (ticket-store.go:25-44). The constructor models only the result on a new file: an empty bucket with sequence 0. Reopening an existing file is not modelled. There, the persisted bucket and counter would simply be kept.
- Store failures: transaction, commit and I/O errors, and the fatal `checkError` on them. In the model, `Save` always succeeds, so it returns no error and the error `Pay` returns from it is always nil. `NextSequence`'s own errors (closed or read-only transaction) cannot arise inside `Update`.
- JSON encoding: the bucket holds `Ticket` values, and marshalling then unmarshalling is taken to be the identity. Bytes that do not decode (ignored by `Find`) do not arise.
- The clock: `time.Now()` and `time.Since` become the parameter `now`. Times are integer nanoseconds since Go's zero time, and the monotonic clock reading is ignored.
- Store.TicketStore.Pay: the code calls `Find` through the package-level store `tickets` rather than its receiver. The program has a single store (main.go:29), so the model reads from the receiver.
- Store.TicketStore.Find: the error's text ("Cannot find A ticket with ID: …") is not modelled. The error is `NotFound(id)`, carrying the id.
- Tickets.HoursAboveExactly: the value of `Hours()` is treated as exact. Float64 rounding of the fraction can only matter far from the 1, 3 and 6 hour boundaries the code tests.
- Tickets.IncreaseRate: Go's `int` is 64 bits and the model's integers are unbounded. An amount large enough to overflow is never reached, since the code only passes 300 with at most three passes.
- Tickets.FormatCents: approximates `fmt.Sprintf("$%.2f", float64(c)/100)` with integer arithmetic. The two agree for every amount `CalculateOwing` returns. The `log.Println` of the same value is a side effect and is not modelled.
- Concurrency: the model is sequential. The race between two `Pay` calls, each doing `Find` and then `Save` in separate transactions, is not modelled. Sequentially, the second one simply overwrites the first (`RepayOverwrites`).
