# The seat-booking protocol, modelled and proved in Dafny

The system sells cinema seats. A user claims a seat for a short time (a hold), pays for it, and confirms; the confirm
writes one booking and one outbox event. Holds live in Redis and vanish on their own, bookings and payments live in
Postgres, and no lock spans them: the payment gate is read outside the booking transaction, the hold is cleaned up
after the commit, webhooks and client confirms race for one payment row, and refresh tokens rotate in families with
theft revocation. This project models those parts and proves what they promise, for every interleaving.

`dafny verify dfyconfig.toml` checks everything.

## How the model is built

- **Values** (`domain.dfy`, `seat_keys.dfy`, `decimal.dfy`, `geometry.dfy`, `webhooks.dfy`): seats, holds, bookings,
  payments, the seat key codec, the grid, the webhook signature. Times are integers in nanoseconds.
- **Abstract stores** (`holds.dfy`, `sales.dfy`, `ledger.dfy`, `refresh_tokens.dfy`): each atomic operation as a
  function from state to answer and new state, with the laws every run of operations keeps.
- **Stores as objects**: `memory_hold_store.dfy`, `redis_hold_store.dfy`, `booking_store.dfy`, `booking_repo.dfy`,
  `payment_store.dfy`, `payment_repo.dfy` and the class in `refresh_tokens.dfy` are the adapters, field by field and
  loop by loop, each proved against the abstract operation. The Postgres payment repository keeps its two statements,
  with other requests' operations between them. `memory_hold_runs.dfy` takes the in-memory tables over whole runs.
- **The protocol** (`protocol.dfy`): every request is a program counter with its locals and every port call is one
  atomic step. Steps of any number of requests interleave with clock ticks, vanishing keys, price changes, gateway
  answers, failed calls and lost replies. `protocol_facts.dfy` states the invariant, `protocol_steps.dfy` and
  `protocol_runs.dfy` prove it for every run, `protocol_theorems.dfy`, `protocol_answers.dfy`, `protocol_origins.dfy`
  and `protocol_seats.dfy` draw the guarantees, `protocol_limits.dfy` states what is not guaranteed, with exact conditions, and `witnesses.dfy`
  builds runs in which each of those limits is reached.
- **Progress** (`protocol_progress.dfy`, `purchases.dfy`): exactly when each use case succeeds if nothing interferes,
  and a whole purchase as the continuation of any run.
- **The services** (`site.dfy`, `booking_service.dfy`, `payment_service.dfy`, `auth_service.dfy`): the use cases as
  imperative methods on the store objects. Before every port call `Interfere` stands for everything other requests may
  do; its contract allows any continuation of the run, and callers know only that contract. Each use case is proved to
  end as its request in the protocol ends, so the guarantees over runs apply to it, and to answer an infrastructure
  error only if one of its own calls was not answered. Payments are the two-statement repository. `landings.dfy` says
  where each port call leaves its request.

Two requests never mint the same identifier: UUIDs are numbered identifiers, fresh at each step. The world also keeps a
record of the past that no step reads (who minted what, which prices a screening has had, which amounts were reported
as moved, when a sale was checked), so that guarantees about earlier moments can be stated; the lemmas of
`protocol_origins.dfy` trace each entry to the step of the run that caused it.

The hold gate is exact to the nanosecond on the in-memory store and to the second, rounded down, behind Redis. The
protocol covers both (`Choice.redis`), and `RedisHoldStores.ReadBackIsConservative` gives the difference.

## Where code and documentation differ

The model follows the code.

- `WebhookOutcome.Applied` is documented as "the event changed our state" (`internal/application/payment/service.go:27-30`),
  but a failed event delivered again to a row that has already failed answers `Applied` true and changes nothing
  (line 243): `Ledger.FailedReplayChangesNothing`, `ProtocolProgress.HookAlone`, and a run that does it: `Witnesses.FailedReplayIsReported`.
- The comment on post-commit cleanup says a failed cleanup costs a hold-limit slot "until TTL expiry"
  (`internal/application/booking/service.go:217-220`), but the bookkeeping sets carry no TTL and no script sweeps them,
  so the slot comes back only by a successful release (`Holds.SlotsConserved`). Once the record has expired no release
  can succeed: the slot is gone in every continuation (`Holds.LostSlotStays`), and a user who has lost all of them is
  locked out for good (`Holds.LockedOutForGood`, with `Holds.OneLostHoldLocksOut` as an instance).

## Model

| member | source | states |
|---|---|---|
| Domain.NewSeat | internal/domain/booking/booking.go:120-134 | a seat is accepted only with one to three upper-case letters after trimming and upper-casing and a number of at least one, which is kept |
| Domain.NewSeatFixesValid | internal/domain/booking/booking.go:120-134 | a seat it built is a fixed point of the constructor |
| Domain.NewSeatReads | internal/domain/booking/booking.go:120-134 | exactly which input names a seat: one to three letters in either case with any white space around them and a number from one on; the seat carries the letters in upper case |
| Domain.SettlingFollowsEdges | internal/domain/payment/payment.go:121-136 | what the guarded writes may do to a status is no change or an edge of the status machine |
| Domain.EdgesGoForward | internal/domain/payment/payment.go:121-136 | the whole status machine in one line: an open payment moves forward to authorized, captured or failed, collected money moves one stage at a time through a refund, nothing else moves; so it only goes forward and ends in failed and refunded |
| SeatKeys.ParseUndoesKey | internal/adapters/redis/holdstore.go:39-67 | parsing a seat key of its own screening returns the seat, whatever characters the screening ID holds |
| SeatKeys.ParseDecides | internal/adapters/redis/holdstore.go:39-67 | exactly which keys parse and to what: the prefix, the screening, a row up to the next colon and a numeral that NewSeat accepts |
| SeatKeys.ForeignKeyNeverParses | internal/adapters/redis/holdstore.go:48-67 | parsing fails on every other screening's key, prefixes and colons in the IDs included |
| SeatKeys.SeatKeyInjective | internal/adapters/redis/holdstore.go:39-41 | distinct seats of distinct screenings have distinct keys |
| Decimal.AtoiItoa | internal/adapters/redis/holdstore.go:40-60 | the printed seat number reads back, for every 64-bit integer |
| Decimal.NumeralsAreDecimal | internal/adapters/redis/holdstore.go:40-40 | the print is decimal: appending a digit makes ten times the number plus the digit |
| Holds.ApplyInv | internal/adapters/redis/holdstore.go:85-137 | every claim, release and vanishing key keeps: a seat key carries the token of the latest hold granted for the seat, a session record is the hold granted to it, and bookkeeping is the granted and unreleased sessions within the limit |
| Holds.OnlyOwnSeatChanges | internal/adapters/redis/holdstore.go:118-137 | a seat key is taken away only by vanishing or by the release of the very hold it belongs to, however late other releases come |
| Holds.OnlyOwnSessionChanges | internal/adapters/redis/holdstore.go:118-137 | the same for session records |
| Holds.SlotsConserved | internal/adapters/redis/holdstore.go:85-137 | over every run a user's bookkeeping grows by the holds granted and shrinks by the holds released, so expiry returns no slot, and it never exceeds the limit |
| Holds.HoldExcludes | internal/adapters/redis/holdstore.go:85-137 | until its seat key vanishes or its owner releases it, a granted hold has every other claim on the seat refused, whatever happens meanwhile |
| Holds.HoldIsServed | internal/adapters/redis/holdstore.go:105-137 | until its record vanishes or its owner releases it, it reads back as granted, nobody else can release it, and its release gives back record, slot and seat |
| Holds.ReleaseDecides | internal/adapters/redis/holdstore.go:118-137 | a release case by case: unknown, foreign, or exactly the hold taken out of all three indexes, the seat key only if it carries the token |
| Holds.LostSlotStays | internal/adapters/redis/holdstore.go:85-137 | once a session's record has vanished unreleased, its slot stays taken in every continuation |
| Holds.LockedOutForGood | internal/adapters/redis/holdstore.go:85-137 | a user whose slots have all lost their records and reach the limit is never granted a hold again |
| Holds.OneLostHoldLocksOut | internal/application/booking/service.go:213-227 | an instance: with a limit of one, a hold whose keys have expired leaves no key and a user who is refused |
| MemoryHoldStores.HoldStore.Hold | internal/adapters/memory/holdstore.go:69-93 | answer and new tables are those of one claim: limit, then live seat entry, then all four indexes |
| MemoryHoldStores.HoldStore.Release | internal/adapters/memory/holdstore.go:97-120 | answer and new tables are those of one release: live session, owner, token-checked delete |
| MemoryHoldStores.HoldStore.Get | internal/adapters/memory/holdstore.go:123-133 | the stored hold exactly while it is unexpired |
| MemoryHoldStores.HoldStore.HeldSeats | internal/adapters/memory/holdstore.go:139-151 | exactly the seats of the screening's live sessions |
| MemoryHoldStores.ClaimInv | internal/adapters/memory/holdstore.go:69-93 | a claim under fresh identifiers keeps unexpired seats and sessions in one-to-one correspondence, the bookkeeping and the counter |
| MemoryHoldStores.GiveUpInv | internal/adapters/memory/holdstore.go:97-120 | so does a release |
| MemoryHoldStores.TickInv | internal/adapters/memory/holdstore.go:69-151 | so does the passing of time |
| MemoryHoldStores.OneLiveHoldPerSeat | internal/adapters/memory/holdstore.go:69-93 | two live holds of one seat are the same hold |
| MemoryHoldStores.ClaimRefinesLiveHolds | internal/adapters/memory/holdstore.go:69-93 | on the plain set of live holds a claim is granted exactly if no live hold has the seat and the user is below the limit, and adds its hold exactly if it is granted and has not expired on the way |
| MemoryHoldStores.GiveUpRefinesLiveHolds | internal/adapters/memory/holdstore.go:97-120 | on the plain set of live holds a release removes its own hold and nothing else |
| MemoryHoldStores.GiveUpTakesOwnEntry | internal/adapters/memory/holdstore.go:97-120 | on any tables a release takes away no seat entry but the one that carries its own token |
| MemoryHoldStores.BothEnumerationsAgree | internal/adapters/memory/holdstore.go:139-151 | enumerating live sessions and scanning unexpired seat keys find the same seats |
| MemoryHoldStores.CounterIsTheSum | internal/adapters/memory/holdstore.go:69-119 | the counter is the number of sessions and the sum of all users' bookkeeping |
| MemoryHoldStores.CounterNeedsNewSession | internal/adapters/memory/holdstore.go:74-92 | the counter stays right exactly if the granted session ID is new |
| MemoryHoldStores.ClaimRefines | internal/adapters/memory/holdstore.go:69-93 | on the unexpired part of the tables a claim is the abstract claim, followed by the loss of both keys if it arrives expired; it is the plain abstract claim exactly unless an expired claim is granted |
| MemoryHoldStores.GiveUpRefines | internal/adapters/memory/holdstore.go:97-120 | the release is the abstract store's release |
| MemoryHoldStores.TickOnlyLoses | internal/adapters/memory/holdstore.go:69-151 | expiry only makes seat keys and session records vanish; bookkeeping stays |
| MemoryHoldRuns.RunConserves | internal/adapters/memory/holdstore.go:69-151 | over every run of claims, releases and clock readings, late claims included: the whole invariant holds, the counter is the number of sessions and the sum of the bookkeeping, a user's bookkeeping is what it was plus grants minus releases, and it stays within the limit |
| MemoryHoldRuns.RunsFromEmpty | internal/adapters/memory/holdstore.go:69-151 | in every run from empty tables bookkeeping is grants minus releases, no user has more live holds than the limit and no seat two |
| MemoryHoldRuns.RunRefines | internal/adapters/memory/holdstore.go:69-151 | every run of the tables is a run of the abstract store with the same calls and the same answers, ending in the view of the tables |
| RedisHoldStores.HoldStore.HoldScript | internal/adapters/redis/holdstore.go:85-103 | the claim script answers and writes what the abstract claim does on string keys and hashes, lists the session under its expiry in the user's and the global sorted set, and writes nothing when it refuses |
| RedisHoldStores.HoldStore.Hold | internal/adapters/redis/holdstore.go:163-218 | a malformed or expired hold is refused untouched; otherwise the script runs, with the TTL rounded up to the second |
| RedisHoldStores.HoldStore.Release | internal/adapters/redis/holdstore.go:118-137 | the release script answers and writes what the abstract release does, the seat key rebuilt from the hash, takes the session out of both sorted sets, and writes nothing when it refuses |
| RedisHoldStores.HoldStore.Get | internal/adapters/redis/holdstore.go:248-278 | the stored hold with its expiry floored to the second, never a parse error |
| RedisHoldStores.HoldStore.HeldSeats | internal/adapters/redis/holdstore.go:294-312 | a cursor walk during which keys come and go returns every seat whose key stands throughout and no seat whose key stood at no batch; other screenings' keys are skipped |
| RedisHoldStores.HoldStore.SeatKeyVanishes | internal/adapters/redis/holdstore.go:89-89 | an expiring seat key is the abstract loss of that seat key |
| RedisHoldStores.HoldStore.SessionKeyVanishes | internal/adapters/redis/holdstore.go:97-97 | an expiring session hash is the abstract loss of that record |
| RedisHoldStores.KeyOutlivesHold | internal/adapters/redis/holdstore.go:168-187 | a key written with the rounded TTL lives at least until the hold expires and less than a second past it plus the write delay |
| RedisHoldStores.ReadBackIsConservative | internal/adapters/redis/holdstore.go:248-278 | a read-back hold that may be confirmed is before its original expiry with its key alive, and less than a second of the window is lost |
| Sales.CommitLawful | internal/adapters/postgres/repos_booking.go:80-133 | booking and event are appended together or not at all, keeping one booking per session, one confirmed booking per seat and one event per booking with its own fields |
| Sales.InsertArbitrates | internal/adapters/memory/bookingstore.go:51-78 | an insert succeeds exactly if no row has the session and no confirmed row the seat, and appends the booking as asked for, confirmed and stamped; a refused one changes nothing and reports only a violated index |
| Sales.CommitDecides | internal/adapters/postgres/repos_booking.go:102-133 | a commit appends the inserted booking and an event that carries its fields one by one, or changes nothing |
| Sales.LookupsDecide | internal/adapters/postgres/repos_booking.go:136-158 | the lookups on plain rows |
| BookingStores.BookingStore.Confirm | internal/adapters/memory/bookingstore.go:51-78 | on two maps the arbiter answers and keeps what the table of bookings does |
| BookingStores.BookingStore.GetBySession | internal/adapters/memory/bookingstore.go:81-90 | the session's booking or not found |
| BookingStores.BookingStore.SeatConfirmed | internal/adapters/memory/bookingstore.go:93-103 | true exactly if a confirmed booking has the seat |
| BookingStores.BookingStore.ConfirmedSeats | internal/adapters/memory/bookingstore.go:106-119 | exactly the screening's confirmed seats |
| BookingRepos.BookingRepo.InsertConfirmed | internal/adapters/postgres/repos_booking.go:80-100 | the insert returns the row, or the name of a constraint that some row violates and that maps to its domain error |
| BookingRepos.BookingRepo.Confirm | internal/adapters/postgres/repos_booking.go:80-133 | a committed transaction appends the booking as asked for and an event whose booking, session, user, screening, seat and time are the row's own; any other ending leaves both tables as they were |
| BookingRepos.BookingRepo.GetBySession | internal/adapters/postgres/repos_booking.go:136-145 | the session's booking or not found |
| BookingRepos.BookingRepo.SeatConfirmed | internal/adapters/postgres/repos_booking.go:148-158 | true exactly if a confirmed booking has the seat |
| BookingRepos.BookingRepo.ConfirmedSeats | internal/adapters/postgres/repos_booking.go:161-171 | exactly the screening's confirmed seats |
| Geometry.CheckSeat | internal/domain/movie/movie.go:51-61 | a seat is in the grid exactly if its row is listed and its number within the row |
| Geometry.AllSeats | internal/domain/movie/movie.go:66-74 | as many seats as rows times width, each at its row-major position, and exactly the seats the geometry accepts |
| Geometry.PositionIsRowMajor | internal/domain/movie/movie.go:66-74 | positions number the grid row after row, each row by number, from zero without a gap up to the count |
| Geometry.GridAt | internal/domain/movie/movie.go:66-74 | the position of every seat in the row-major grid |
| Geometry.GridHolds | internal/domain/movie/movie.go:51-74 | the grid contains a seat exactly if the geometry accepts it |
| Geometry.SeatMap | internal/application/booking/service.go:255-276 | each grid seat at its position, booked exactly if confirmed, else held exactly if held, else available |
| PaymentStores.PaymentStore.InsertIntent | internal/adapters/memory/paymentstore.go:56-81 | appends an intent row unless the intent is known or the session has an active row, in the order of the rows |
| PaymentStores.PaymentStore.GetActiveBySession | internal/adapters/memory/paymentstore.go:86-96 | the latest active row of the session |
| PaymentStores.PaymentStore.GetByIntent | internal/adapters/memory/paymentstore.go:99-109 | the row of the intent |
| PaymentStores.PaymentStore.Capture | internal/adapters/memory/paymentstore.go:113-133 | the guarded edge to captured, the idempotent replay and the refusal, on one row |
| PaymentStores.PaymentStore.MarkFailed | internal/adapters/memory/paymentstore.go:137-157 | the guarded edge to failed, the replay and the refusal, on one row |
| PaymentStores.PaymentStore.HasCapturedPayment | internal/adapters/memory/paymentstore.go:161-171 | true exactly if some row has the session and the status captured |
| Ledger.LookupsDecide | internal/adapters/memory/paymentstore.go:86-109 | on plain rows: the session's one row that is neither failed nor refunded, the intent's row, and paid exactly if some row is captured |
| Ledger.InsertDecides | internal/adapters/memory/paymentstore.go:56-81 | an insert succeeds exactly if no row has the intent and none of the session is ongoing, and appends the open row as asked for; a refusal names what is in the way |
| Ledger.CaptureDecides | internal/adapters/memory/paymentstore.go:113-133 | a capture status by status: it closes an open row, replays on a captured one, is refused on any other and on none, and touches no other row |
| Ledger.FailureDecides | internal/adapters/memory/paymentstore.go:137-157 | a failure status by status |
| Ledger.RunsAreLawful | internal/adapters/memory/paymentstore.go:56-157 | over every run intents are unique, a session has one active row at most, rows are only appended, identity, session, amount and currency are frozen and settled rows never change |
| Ledger.OneCapturedRow | internal/adapters/memory/paymentstore.go:113-133 | a session has at most one captured row |
| Ledger.CapturedOnce | internal/adapters/memory/paymentstore.go:113-133 | of all captures of an intent in a run exactly one reports the move if the run captures the row, and none otherwise |
| Ledger.FailedReplayChangesNothing | internal/application/payment/service.go:229-243 | a failed event answers success exactly if the row ends up failed, and changes nothing exactly if it already was |
| PaymentRepos.PaymentRepo.InsertIntent | internal/adapters/postgres/repos_payment.go:55-70 | appends the row, or answers by whichever violated constraint is reported; either way a refused insert writes nothing, and for a new intent it is the one-step insert |
| PaymentRepos.PaymentRepo.GetActiveBySession | internal/adapters/postgres/repos_payment.go:73-82 | the active row of the session |
| PaymentRepos.PaymentRepo.GetRowByIntent | internal/adapters/postgres/repos_payment.go:85-94 | the row of the intent |
| PaymentRepos.PaymentRepo.HasCapturedPayment | internal/adapters/postgres/repos_payment.go:166-172 | true exactly if some row has the session and the status captured |
| PaymentRepos.UpdateIsCapture | internal/adapters/postgres/repos_payment.go:106-134 | the UPDATE alone writes what the one-step capture writes, and a row it misses gets the answer of the SELECT |
| PaymentRepos.UpdateIsFailure | internal/adapters/postgres/repos_payment.go:139-161 | the same for the edge to failed |
| PaymentRepos.MissedRowStays | internal/adapters/postgres/repos_payment.go:106-134 | a known row the UPDATE missed reads the same at every later SELECT |
| PaymentRepos.UpdateRewritesOneRow | db/queries/payments.sql:44-58 | the guarded UPDATE rewrites the one open row of the intent and nothing else |
| PaymentRepos.PaymentRepo.Capture | internal/adapters/postgres/repos_payment.go:106-134 | UPDATE then SELECT with any operations in between: same table as the one-step capture followed by those operations, and the same answer exactly if the row existed or none appears |
| PaymentRepos.PaymentRepo.MarkFailed | internal/adapters/postgres/repos_payment.go:139-161 | the same for the edge to failed |
| PaymentRepos.MissedCaptureLinearizes | internal/adapters/postgres/repos_payment.go:106-134 | an answer whose UPDATE missed is a one-step answer at one of the two statements exactly unless an open row of the intent appeared in between |
| PaymentRepos.InsertBetweenStatementsShows | internal/adapters/postgres/repos_payment.go:106-134 | that case is real: a concrete insert makes a capture answer an invalid transition on an open row |
| BookingServices.Service.Hold | internal/application/booking/service.go:80-115 | whatever other requests do between its port calls, the answer is that of its request in the protocol, and it is an infrastructure error only if a call of this request was not answered |
| BookingServices.Service.Confirm | internal/application/booking/service.go:121-178 | the same, from hold gate and payment gate to commit, cleanup and recovery |
| BookingServices.Service.Sell | internal/application/booking/service.go:141-178 | from the open hold gate on: payment gate, commit, then cleanup or recovery |
| BookingServices.Service.RecoverConflict | internal/application/booking/service.go:182-211 | the recovery ends its request with the recovered booking or the original conflict |
| BookingServices.Service.CleanupHold | internal/application/booking/service.go:221-227 | the sale stands whether or not the release works |
| BookingServices.Service.Release | internal/application/booking/service.go:232-234 | the answer of the store's release |
| BookingServices.Service.SeatMap | internal/application/booking/service.go:240-277 | the screening's own grid, one status per seat at its position, computed from what the two reads answered, and a price the screening has had |
| PaymentServices.Service.HoldGate | internal/application/payment/service.go:300-312 | passes exactly a live hold of the user, or answers not found, foreign or expired |
| PaymentServices.Service.CreateIntent | internal/application/payment/service.go:69-124 | the answer of its request: reuse, new row, or the winner of a lost race |
| PaymentServices.Service.ConfirmByClient | internal/application/payment/service.go:137-186 | the answer of its request: replay, capture, or decline with a best-effort failure |
| PaymentServices.Service.HandleWebhook | internal/application/payment/service.go:206-252 | from body and header: a delivery that does not verify changes no row and no state; one that does ends as the request of its event, refused only if a call of it was not answered |
| PaymentServices.Service.HandleEvent | internal/application/payment/service.go:212-252 | the verified event ends as its request ends |
| PaymentServices.SignedDeliveryIsHandled | internal/adapters/payment/fakegateway.go:132-208 | what the gateway signs verifies to the event it signed, exactly if it names an intent and arrives within five minutes |
| PaymentServices.SignedDeliverySettles | internal/application/payment/service.go:206-289 | from the signature to the table: the open row of the delivery's intent ends captured if it says "payment.captured" for exactly the row's amount, failed if it says "payment.failed" or another amount, and every other row stays |
| PaymentServices.EventOf | internal/application/payment/ports.go:40-47 | the event carries intent and amount of the delivery, its kind by the two names |
| PaymentServices.Service.ApplyCaptured | internal/application/payment/service.go:256-289 | a wrong amount fails the row and never captures it; a right one is the guarded capture |
| Sites.Site.GetHold | internal/application/booking/service.go:122-125 | the hold store's read as one step of the protocol between steps of others |
| Sites.Site.GetScreening | internal/application/booking/service.go:241-244 | the catalogue's own screening, as one step |
| Sites.Site.ClaimHold | internal/application/booking/service.go:111-114 | the claim as one step |
| Sites.Site.ReleaseHold | internal/application/booking/service.go:221-234 | the release as one step, from a release request or from cleanup |
| Sites.Site.Confirm | internal/application/booking/service.go:157-168 | the booking transaction as one step; a failed one leaves the tables alone |
| Sites.Site.InsertIntent | internal/application/payment/service.go:101-107 | the intent insert as one step |
| Sites.Site.Capture | internal/adapters/postgres/repos_payment.go:106-134 | the repository's UPDATE and SELECT, others acting before each, as one step of the protocol |
| Sites.Site.MarkFailed | internal/adapters/postgres/repos_payment.go:139-161 | the same for the failure |
| Sites.Site.SelectAgain | internal/adapters/postgres/repos_payment.go:119-134 | whatever others do before the second statement, it finds the row the first one missed |
| ProtocolRuns.StepSound | internal/application/booking/service.go:80-277 | every step of every request, tick, vanishing key, price change and lost reply keeps the invariant and only moves the world forward |
| ProtocolRuns.RunInv | internal/application/booking/service.go:121-168 | the invariant holds in every state of every run |
| ProtocolTheorems.SaleIsEarned | internal/application/booking/service.go:121-168 | every booking has session, user, screening and seat of a hold granted inside the grid, a row of its session captured for an amount that moved and that the screening has asked, and an expiry check passed before that hold expired |
| ProtocolOrigins.SaleWasChecked | internal/application/booking/service.go:132-139 | behind every booking stands an earlier state of the run in which a confirm of its session was about to check a hold that had not expired |
| ProtocolOrigins.SaleWasCommitted | internal/application/booking/service.go:157-168 | behind every booking stands the one step that committed it, of a confirm of its session past both gates, and confirmedAt is the clock of that step |
| ProtocolOrigins.SaleIsLateIfExpiryPasses | internal/application/booking/service.go:132-168 | the check of every booking is before the expiry of the granted hold; the booking is late exactly if the clock crosses that expiry between check and commit |
| ProtocolSeats.HoldGuardsSeat | internal/application/booking/service.go:121-168 | a confirm past its gates finds its seat under another session's key only if it read its hold before that key was granted, or that key was granted while its own record stood and its own seat key had vanished |
| ProtocolTheorems.SalesAreUnique | internal/adapters/postgres/repos_booking.go:80-133 | one booking per seat and per session, all confirmed, and for each booking one event with its identity, session, user, screening, seat and time |
| ProtocolTheorems.SaleIsFinal | migrations/00003_confirmed_bookings.sql:30-35 | a sold seat never changes owner and a session never changes booking |
| ProtocolTheorems.PhantomHoldNeverSells | internal/application/booking/service.go:89-113 | a hold that slipped past the pre-check onto a sold seat never becomes a booking |
| ProtocolTheorems.ConfirmIsIdempotent | internal/application/booking/service.go:164-203 | successful confirms of one session return the same booking, and at most one call created it |
| ProtocolTheorems.LostSeatIsForeign | internal/application/booking/service.go:180-188 | "seat already booked" surfaces only when another session owns the seat, for good |
| ProtocolTheorems.RecoveryNeverFails | internal/application/booking/service.go:192-211 | the ownership-violation answer and the raw replay signal never surface |
| ProtocolTheorems.PaymentsEvolve | internal/adapters/memory/paymentstore.go:56-157 | in every state intents are unique and a session has one row at most that has not failed; between any two states rows only evolve |
| ProtocolTheorems.StatusesFollowEdges | internal/domain/payment/payment.go:121-136 | between consecutive states a row keeps its identity and amount and its status moves along an edge or not at all; captured is never left |
| ProtocolTheorems.StatusesNeverGoBack | internal/domain/payment/payment.go:121-136 | over any stretch of a run a row's status only goes forward, the row is untouched while it does not, and money that moved has moved for good |
| ProtocolTheorems.StatusesReached | internal/application/payment/service.go:155-159 | no run authorizes or refunds a payment |
| ProtocolTheorems.WritesNameKnownRows | internal/adapters/postgres/repos_payment.go:106-161 | captures and failures are only ever asked for intents with a row, the case in which the repository's two statements act as one |
| ProtocolTheorems.CaptureIsReportedOnce | internal/application/payment/service.go:174-186 | across all webhooks and client confirms at most one call reports the capture of an intent |
| ProtocolTheorems.ClientPaymentIsCaptured | internal/application/payment/service.go:137-186 | a client confirm without error returns a captured row of its session, which stays as returned |
| ProtocolOrigins.CaptureHadMoney | internal/application/payment/service.go:161-185 | a captured row rests on an earlier step by which the gateway or a verified event says exactly its frozen amount moved |
| ProtocolOrigins.AmountWasThePrice | internal/application/payment/service.go:84-107 | a row's amount is the price its screening asked while the request that minted the intent looked it up |
| ProtocolTheorems.WebhookAcks | internal/application/payment/service.go:194-289 | a verified webhook whose port calls are answered is never refused, wherever others act between lookup and write |
| ProtocolTheorems.RedeliveryChangesNothing | internal/application/payment/service.go:206-289 | once an event on a recorded intent has been handled, delivering it again at any later moment changes no row |
| ProtocolAnswers.GateNeedsMoney | internal/application/booking/service.go:149-155 | a confirm passes the payment gate exactly if some row of its session is captured at that moment, and is refused as unpaid exactly if none is |
| ProtocolAnswers.ClaimDecides | internal/adapters/redis/holdstore.go:163-218 | whenever a minted hold reaches the store: a late or malformed one is refused by Redis, then the limit decides, then the seat key, and a granted one is written to all three indexes |
| ProtocolAnswers.CleanupNeverFails | internal/application/booking/service.go:221-227 | whatever the release after a sale answers, the request ends with the sale |
| ProtocolAnswers.InsertRaces | internal/application/payment/service.go:101-123 | in every run, the insert of a minted intent makes it ready exactly if no row of the session is ongoing by then, and else goes to read the winner |
| ProtocolAnswers.LostRaceSurfaces | internal/application/payment/service.go:108-117 | in every run, the read after a lost race returns the session's ongoing row as not created, or surfaces the lost race if there is none any more |
| ProtocolAnswers.EventSettlesRow | internal/application/payment/service.go:226-289 | in every run, whatever happened since the lookup, an event's write settles the open row of its intent by kind and amount and touches nothing else, and the answer says whether it applied |
| ProtocolAnswers.EventWasHandled | internal/application/payment/service.go:206-289 | behind every acknowledgement that found a row stands the step that wrote it, with exactly that effect and that answer |
| ProtocolAnswers.UnansweredCalls | internal/application/booking/service.go:221-227 | where each request goes whose call is not answered, and that a dropped call changes nothing while a lost reply hides all effects |
| ProtocolOrigins.IntentWasAnswered | internal/application/payment/service.go:101-123 | an intent request says "created" exactly if its own step appended the row; a lost race, like any reuse, returns a row that was there |
| ProtocolTheorems.ShownBookedStaysBooked | internal/application/booking/service.go:246-277 | a seat shown as booked is sold in every later state |
| ProtocolTheorems.OthersAreUndisturbed | internal/application/booking/service.go:213-234 | a release or a cleanup, however late, takes no key or record of another session |
| ProtocolLimits.CommitIgnoresTheClock | internal/application/booking/service.go:132-164 | whatever time passes before it, the commit succeeds exactly if session and seat are unsold, and writes the same booking stamped later |
| Witnesses.LateSaleHappens | internal/application/booking/service.go:132-168 | every run in which a user can buy a seat goes on to a booking committed after the granted hold expired |
| Witnesses.ChargedRowFails | internal/application/payment/service.go:161-185 | every such run goes on to a charge that moved the money of a row that ends failed, the client refused |
| Witnesses.DeclinedRowIsCaptured | internal/application/payment/service.go:161-171 | every such run goes on to a client told "declined" whose row ends captured |
| Witnesses.FailedReplayIsReported | internal/application/payment/service.go:229-243 | every such run goes on to a failed event delivered twice, both answered as applied, the second changing no row |
| Witnesses.MapMissesSale | internal/application/booking/service.go:246-253 | every such run goes on to a map that shows as available a seat that was held when the map read the bookings and is sold when it is shown |
| Witnesses.SaleUnderAnotherHold | internal/application/booking/service.go:121-168 | every such run goes on to a sale of a seat that another session holds by then |
| Witnesses.SomeRunIsBuyable | internal/application/booking/service.go:80-115 | such runs exist |
| ProtocolLimits.ChargedIsPaidUnlessFailed | internal/application/payment/service.go:161-185 | after a successful charge the client is told "paid" exactly if the row has not failed meanwhile |
| ProtocolLimits.DeclinedIsFailedUnlessCaptured | internal/application/payment/service.go:161-171 | after a decline the row is failed exactly if nothing has captured it meanwhile; the answer is "declined" either way |
| ProtocolLimits.MapIsTwoReads | internal/application/booking/service.go:246-253 | each entry of a finished map follows from the bookings at one moment and the holds at a later one |
| ProtocolLimits.SoldBetweenReadsShowsAvailable | internal/application/booking/service.go:246-250 | from every such state, a seat sold and cleaned up between the two reads is shown as available |
| ProtocolProgress.HoldAlone | internal/application/booking/service.go:80-115 | undisturbed, on either hold store, a hold is granted exactly if the seat exists, is unsold and unheld and the user has a slot left; a refusal names its obstacle and changes nothing |
| ProtocolProgress.ConfirmAlone | internal/application/booking/service.go:121-211 | undisturbed, on either hold store, a confirm sells, replays or refuses exactly in the stated cases, by the rows of payments and bookings, and a sale writes the booking and its event field by field and takes the hold out |
| ProtocolProgress.ReleaseAlone | internal/application/booking/service.go:229-234 | undisturbed, a release gives back the user's own hold, or answers not found or foreign and changes nothing |
| ProtocolProgress.IntentAlone | internal/application/payment/service.go:69-124 | undisturbed, on either hold store, create-intent returns the ongoing row, or appends one at the screening's price exactly if the gateway accepts a positive price; each refusal names its obstacle |
| ProtocolProgress.PayAlone | internal/application/payment/service.go:137-186 | undisturbed, on either hold store, a client payment captures, fails, replays or refuses with the stated error, by the status of the session's ongoing row |
| ProtocolProgress.HookAlone | internal/application/payment/service.go:206-289 | undisturbed, what each verified event does to its row and when it reports Applied |
| Purchases.PurchaseCompletes | internal/application/booking/service.go:80-178 | from every reachable state in which a seat is free, the run can go on so that the user buys it; booking and paid row are the only new rows and every slot is back |
| RefreshTokens.RefreshTokenStore.RotateToken | internal/adapters/memory/refreshtokenstore.go:68-97 | answer and new rows are those of one rotation: unknown, reuse before expiry, expired, or successor |
| RefreshTokens.RefreshTokenStore.Revoke | internal/adapters/memory/refreshtokenstore.go:100-116 | every unrevoked row of the family is revoked, earlier revocation times kept, other rows untouched |
| RefreshTokens.RotationDecides | internal/domain/user/refresh_token.go:33-64 | reuse is told from expiry by what happened to the token and never by the clock; only an unexpired token neither replaced nor revoked rotates, into a successor of its user and family |
| RefreshTokens.RowStep | internal/adapters/memory/refreshtokenstore.go:68-116 | no step changes a row but by revoking it as of now or replacing it in its own rotation; expiry, owner and family never move |
| RefreshTokens.RotatesUntilExpiry | internal/domain/user/refresh_token.go:33-64 | after any run a token still rotates exactly if its stored expiry lies ahead and it has been neither replaced nor revoked |
| RefreshTokens.FamiliesAreChains | internal/adapters/memory/refreshtokenstore.go:46-97 | in every run each family is one linear chain by ReplacedBy with one user and one unreplaced end, longer by exactly its successful rotations |
| RefreshTokens.FamilySize | internal/adapters/memory/refreshtokenstore.go:46-97 | a family has one row plus one per successful rotation |
| RefreshTokens.TheftAndLogoutKill | internal/adapters/memory/refreshtokenstore.go:77-105 | a rotation answered as reuse and a completed logout revoke the whole family at that moment, keep earlier revocation times and touch no other family |
| RefreshTokens.DeadForGood | internal/adapters/memory/refreshtokenstore.go:68-116 | a dead family stays dead in every run and none of its tokens rotates again |
| RefreshTokens.RotatesAtMostOnce | internal/adapters/memory/refreshtokenstore.go:68-97 | each token rotates successfully at most once in any run, and never once it is replaced or revoked |
| AuthServices.Service.NewSession | internal/application/auth/service.go:215-241 | the first token of a family that did not exist before, unspent and expiring one lifetime after the call; an answer exactly if the store answers, and a lost reply leaves the row behind |
| AuthServices.Service.Refresh | internal/application/auth/service.go:144-165 | one rotation between other requests: reuse leaves the whole family dead, a success chains the new token, expiring one lifetime after the call, to the presented one, and both stand whatever reply or later user lookup fails |
| AuthServices.Service.Logout | internal/application/auth/service.go:192-204 | once it returns, or once the revocation has run, every token of the presented token's family is revoked, whatever happened between lookup and revocation; it fails only if a store call does |
| Webhooks.VerifyWebhook | internal/adapters/payment/fakegateway.go:132-183 | the checks in the source's order end in the event exactly if header, tolerance, signature and body all pass |
| Webhooks.VerifyDecides | internal/adapters/payment/fakegateway.go:132-183 | exactly what is accepted: a header carrying a timestamp within five minutes and the MAC of timestamp, dot and body in hexadecimal, over a body that decodes to an event naming an intent |
| Webhooks.HeaderDecides | internal/adapters/payment/fakegateway.go:240-260 | exactly which headers carry which timestamp and signature: every part has one of the two keys, and the last value under each counts |
| Webhooks.SplitUndoesJoin | internal/adapters/payment/fakegateway.go:241-243 | the parts are cut at the commas and only there |
| Webhooks.HexDecides | internal/adapters/payment/fakegateway.go:141-144 | hexadecimal decoding reads two digits a byte in either case and refuses everything else |
| Webhooks.ParseSignatureHeader | internal/adapters/payment/fakegateway.go:240-260 | the loop computes the header grammar: later values win, unknown keys, missing signs and empty values refuse |
| Webhooks.ParseUndoesPrint | internal/adapters/payment/fakegateway.go:207-260 | parsing the header undoes printing it |
| Webhooks.DecodeUndoesEncode | internal/adapters/payment/fakegateway.go:141-144 | hexadecimal decoding undoes encoding |
| Webhooks.VerifyUndoesSign | internal/adapters/payment/fakegateway.go:132-208 | a signed delivery verifies to its own event exactly if it names an intent and the clock is within the tolerance of the floored signing second |
| Webhooks.FrameInjective | internal/adapters/payment/fakegateway.go:154-157 | the signed text determines timestamp and body |
| Webhooks.TamperedIsRefused | internal/adapters/payment/fakegateway.go:132-160 | under a MAC that tells the two texts apart, nothing but the signed body and timestamp passes with its signature |

## Left out

- HTTP handlers, middleware, cookies, configuration, logging, telemetry, migrations tooling and generated query code: plumbing around the modelled calls.
- JSON, SHA-256 and HMAC: the codec and the MAC are function parameters; the round trip assumes the codec reads back what it wrote.
- Password hashing, access tokens, registration and login checks, the catalogue and user stores, email and password validators: they only add easy members.
- Refunds, the authorized status and cancellation: the status machine and the abstract stores have them, no request reaches them.
- The unwritten sweeper and outbox relay, `SeedCaptured` (`internal/adapters/memory/paymentstore.go:177-195`) and setting the test clock back: the clock of the model never goes back.
- Injected failures of the fake gateway: acceptance and failure of a gateway call are free choices of each step instead.
- Rotation in Postgres, statement by statement: its row lock covers one token, not a family; the family claims are proved for the atomic rotation the port specifies.
- Column widths: amounts and seat numbers are narrowed to 32 bits on the way to Postgres; the model keeps them whole.
- Redis SCAN: `RedisHoldStores.HoldStore.HeldSeats` models the cursor walk, but the map request of the protocol reads the held seats at one moment; glob characters in a screening ID are not modelled.
- The floating-point conversion of a TTL to seconds: `RedisHoldStores.HoldStore.Hold` allows every result the conversion may truncate to.
- Extreme timestamps: conversions of Unix seconds near the limits of 64 bits do not wrap here.
- Pointers: rows behind the pointers of the in-memory maps are values in map fields that the methods reassign, so aliasing inside a store is not modelled; no pointer to a stored row leaves the source's stores.
- Geometry.AllSeats: asks for a row width of at least zero; the source panics on a negative one, which the schema excludes.
- PaymentRepos.PaymentRepo.Capture: if the intent has no row at the UPDATE and one appears before the SELECT, the answer is not the one-step answer; the contract says so exactly, and no request of the protocol gets there (`ProtocolTheorems.WritesNameKnownRows`).
- Liveness under contention: `Purchases.PurchaseCompletes` gives one continuation that succeeds, not that every continuation does.
