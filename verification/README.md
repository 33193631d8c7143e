# Hyperlocal services: verified model

A Dafny model of the parts of the Hyperlocal platform whose correctness depends on more than one
function: how free slots are computed, how a booking moves through payment, assignment, OTPs,
completion, cancellation and review while requests race, how webhooks, sign-up events and rate limits
behave over whole runs, and how verification codes and default addresses are kept consistent.
`dafny verify dfyconfig.toml` checks everything.

## How the model is laid out

| files | what they model |
|---|---|
| `SlotEngine.dfy`, `DayAvailability.dfy` | subtracting bookings from open intervals, cutting the rest into slots, the day filter of the booking query |
| `BookingTypes.dfy`, `BookingStore.dfy` | the booking tables and their atomic writes; a status change is a guarded update |
| `BookingProtocol.dfy` | every request as a program of steps, each a read and at most one atomic write, and the machine that interleaves any number of them |
| `BookingTransitions.dfy`, `BookingAccess.dfy` | what each step does to the tables in columns and conditions, and who may ask for what: no outsider gets past the first step, and the tables hold only what the parties of a booking asked for |
| `BookingInvariant.dfy`, `BookingSafety.dfy` | the invariant of that machine and what follows from it in every interleaving |
| `BookingRefunds.dfy`, `BookingRefundRaces.dfy` | in every interleaving: what a cancellation records, and when a booking can be refunded twice or refunded and served |
| `BookingSerial.dfy` | what holds when requests run one after another without faults |
| `BookingServing.dfy`, `BookingScenarios.dfy` | serving one request step by step, and runs that reach particular states |
| `BookingArrival.dfy`, `BookingCompletion.dfy`, `BookingCancellation.dfy`, `BookingEvents.dfy` | which arrival OTP is found and accepted, when a booking can still be completed, what cancellations record and refund, what becomes of payment events |
| `BookingRepository.dfy`, `BookingService.dfy` | the repositories and request handlers in imperative form, each proved to be one of the machine's runs |
| `PaymentWebhook.dfy` | sequences of webhook deliveries, each handled whole |
| `RateLimiter.dfy` | the in-memory rate limiter |
| `RetryQueue.dfy`, `RetryConsumer.dfy`, `RetryGuarantees.dfy` | the USER_SIGNED_UP consumers: queues, the consume callback, and what the retry protocol guarantees |
| `AuthVerification.dfy`, `AuthService.dfy` | sign-up, verification codes and login |
| `AddressBook.dfy`, `AddressService.dfy` | addresses and the default address |
| `HtmlEscape.dfy` | the escaping of text in e-mails |

Times are integer milliseconds, money is integer paise, and intervals are half-open. Ids are natural
numbers of which only equality matters. Hashes, gateway outcomes, new ids and the clock are inputs: in
the booking machine they are the choices of the environment, so every theorem about runs holds for
every behaviour of the gateway, every schedule and every timing. A request that is never scheduled
again is one whose process died. A status update can meet a database fault, before or after the row has
changed; the repositories report it like a row that did not match, and the model does the same. A refund
call can fail the same way, before or after the gateway has made the refund; the service takes either for
a refusal. "Serial" means one request after another and no such fault.

Classes change their fields step by step as the source does, and their methods are proved against pure
functions; what the services promise is then proved of those functions and of the machines built from
them.

Some expectations one might have of the code are false of it. Each is shown with an input or a run that
breaks it, and with the exact condition under which the code does meet it:

- "Slots overlap no booking": the last millisecond of a day is outside the day filter, so an open interval
  to midnight can offer a slot on top of a booking (`MidnightSlotCanOverlap`). The filter is exact for an
  instant if and only if it is before 23:59:59.999 (`DayFilterIsExactBeforeLastMillisecond`).
- "The guarded update prevents a double refund" (the comment at
  `apps/bookingservice/src/repositories/booking.repository.ts:214-217`): the refund is made before the
  update, so two racing cancellations refund twice (`RacingCancelsRefundTwice`). A booking is refunded at
  most once as long as at most one of its cancellations at a time stands between check and record and no
  fault loses the record of a made refund, be it in the update or in the refund call (`RefundedAtMostOnce`),
  and where a run first departs from that it can go on to refund twice (`OverlapOrLossCanRefundTwice`).
- "A booking that gets served was not refunded": a cancellation can call the gateway and lose against the
  arrival (`ServedBookingCanBeRefunded`). The booking is never refunded if and only if, when the arrival
  takes effect, it has not been refunded and no cancellation is about to call the gateway
  (`ServedIsNeverRefundedIff`). As long as no record is lost that is: no cancellation stands between check
  and record (`ServedWithoutRefundIff`); with a lost record it is not (`LostRecordHidesRefund`).
- "A recorded refund was made": cancelling an unpaid booking can record a refund that is never made
  (`UnpaidRefundIsRecorded`), even if the booking is paid before the record is written
  (`PaidRefundIsRecordedUnmade`). In every interleaving the refund on a cancelled booking's record was made
  if and only if the cancellation that wrote it had seen the booking paid (`RecordedRefundWasMadeIff`,
  `CancelledRowsWereChecked`).
- "Creation is idempotent": not for the empty key (`EmptyKeyIsRethrown`); the insert is rethrown if and only
  if the key is empty and already stored (`InsertIsRethrownForStoredEmptyKey`). Keys are shared by all users,
  so a user can be answered with another's booking (`KeyOfAnotherIsAnswered`); the booking is the user's own
  if and only if no booking of another user carries the key when the request is answered
  (`CreatedBookingIsOwnIff`).
- "A booking awaiting verification can be completed": not once the quarter of an hour is over
  (`ExpiredBookingIsStuck`). In every reachable state it can if and only if its completion OTP is active or
  a request is about to issue it or already holds it (`CompletionIsPossibleIff`).
- "A delivered payment event is acted on": not if the request that claimed it dies (`EventIsClaimedFirst`,
  `UnprocessedEventIsLost`), and not if a fault prevents its update, which is answered OK all the same
  (`SwallowedFaultLosesPayment`). Whatever else happens, as long as no other event names the order, the
  payment gets onto the booking if and only if the claimer comes to write while the booking is pending and
  no fault prevents the update (`EventIsActedOnIff`); for a claimer that runs to its end on a pending booking
  that is: no fault prevents the update (`ClaimerProcessesIff`).
- "Only the newest arrival OTP works": an older one is accepted if the newest was redeemed but a fault kept
  the arrival from being recorded (`OlderOtpCanBeAccepted`), or, without any fault, if a newer one is issued
  while it is being redeemed (`OtpIssuedMeanwhile`). An accepted OTP is the newest issued if and only if no
  newer one had been used when the request found it and none was issued from then to the update
  (`AcceptedOtpIsNewestIff`, `AcceptedWasFound`); in serial runs without faults only the newest is accepted
  (`OnlyNewestArrivalOtpWorks`).
- "Pruning does not change the rate limiter's answers": it does if the clock falls back
  (`FallingBackShows`); it does not if and only if the clock never falls back behind the end of a window it
  has passed (`PruningIsInvisibleIff`).
- "At most max requests per window of time": true of the windows that open with a request
  (`WindowBound`), but a span of the same length can see twice that less one (`SlidingBound`,
  `SlidingBoundIsAttained`), unless it is a single millisecond (`UnitWindowBound`). A maximum below one still
  admits one request.
- "A message is in exactly one place": a crash adds a copy for each delivery that is handed over to a retry
  queue and not acknowledged (`CrashCanDouble`), and for nothing else (`CrashKeepsSingleCopyIff`,
  `CopiesAreCounted`).
- "A dead-lettered sign-up has left no row": it has if an attempt failed after writing the row
  (`DeadLetterCanHaveRow`). An account has its row if and only if some attempt for it got as far as the table
  (`RowExistsIff`).

## Model

| member | source | states |
|---|---|---|
| SlotEngine.SubtractBookedFromRange | apps/bookingservice/src/service/booking.service.ts:607-632 | The two nested loops leave exactly the instants of the range that are in no booking; for a non-empty range the pieces are sorted, non-empty, strictly separated and at most one more than the bookings |
| SlotEngine.SubtractionIsExact | apps/bookingservice/src/service/booking.service.ts:613-630 | An instant is left over if and only if it is in the range and in no booking |
| SlotEngine.SubtractionIsCanonical | apps/bookingservice/src/service/booking.service.ts:612-631 | Pieces are non-empty, in order, with a gap between any two, and at most one more than the bookings |
| SlotEngine.CanonicalFormIsUnique | apps/bookingservice/src/service/booking.service.ts:612-631 | Two canonical lists covering the same instants are the same list |
| SlotEngine.SubtractionDependsOnInstantsOnly | apps/bookingservice/src/service/booking.service.ts:607-632 | Bookings that occupy the same instants of the range leave the identical list |
| SlotEngine.SubtractionIgnoresOrder | apps/bookingservice/src/repositories/booking.repository.ts:353-361 | Every permutation of the fetched bookings, which the query does not order, leaves the identical list |
| SlotEngine.PackingIsOptimal | apps/bookingservice/src/service/booking.service.ts:589-601 | No family of disjoint slots of the duration, inside the open interval and off all bookings, is larger than the list of slots the greedy loop emits |
| SlotEngine.SlotsComeEarliest | apps/bookingservice/src/service/booking.service.ts:589-601 | By no time are more slots over of any such family than of the list: the slots come as early as they can |
| SlotEngine.GreedyStaysAheadInOnePiece | apps/bookingservice/src/service/booking.service.ts:593-600 | Within one free interval by no time are more slots over of any disjoint family than of the greedy one |
| SlotEngine.SlotsAreValid | apps/bookingservice/src/service/booking.service.ts:589-601 | Emitted slots have exactly the duration, do not overlap one another, lie inside the open interval and cover no booked instant |
| DayAvailability.CutIntoSlots | apps/bookingservice/src/service/booking.service.ts:589-601 | The inner loops produce the slots of every free interval in order |
| DayAvailability.GetAvailableSlots | apps/bookingservice/src/service/booking.service.ts:572-604 | The request returns, open interval by open interval, the slots of what the booking read of that interval leaves free |
| DayAvailability.DayFilterLosesNothing | apps/bookingservice/src/repositories/booking.repository.ts:346-363 | From the start of the day up to 23:59:59.999 exclusive, a fetched booking covers an instant if and only if some non-cancelled booking of the provider does |
| DayAvailability.DayFilterIsExactBeforeLastMillisecond | apps/bookingservice/src/repositories/booking.repository.ts:350-359 | For an instant of the day the filter is exact on all booking tables if and only if the instant is before 23:59:59.999 |
| DayAvailability.LastMillisecondBooking | apps/bookingservice/src/repositories/booking.repository.ts:352-359 | A well-formed booking that takes up the last millisecond of the day and is not fetched |
| DayAvailability.SlotsForAreBookable | apps/bookingservice/src/service/booking.service.ts:584-601 | Slots from an open interval within minutes 0 to 1439 overlap no non-cancelled booking of the provider; up to minute 1440 if no booking starts at 23:59:59.999 |
| DayAvailability.OfferedSlotsAreBookable | apps/bookingservice/src/service/booking.service.ts:572-604 | Every slot of the whole answer lies in one of the open intervals, has the asked length and overlaps no booking read for that interval, for open intervals to 23:59, and to midnight if no booking starts in the last millisecond |
| DayAvailability.AnswerIsComplete | apps/bookingservice/src/service/booking.service.ts:572-604 | Over all open intervals: of no family of disjoint slots of the asked length, each within one of the open intervals and off every booking the day's query returns for it, are more over by any time than of the whole answer, and so no family is larger |
| DayAvailability.OfferedSlotsAreInOrder | apps/bookingservice/src/service/booking.service.ts:584-601 | If the open intervals are in order, so are the slots of the whole answer |
| DayAvailability.OfferedSlotsAreDisjoint | apps/bookingservice/src/service/booking.service.ts:572-604 | If the open intervals are disjoint, so are the slots of the whole answer |
| DayAvailability.MidnightSlotCanOverlap | apps/bookingservice/src/repositories/booking.repository.ts:350-359 | An open interval to midnight offers a slot that overlaps a booking starting at 23:59:59.999 |
| BookingStore.WriteGrows | apps/bookingservice/src/repositories/booking.repository.ts:164-340 | No write loses anything: rows keep their identity, statuses move forward, outcomes are written once, finished rows are frozen, OTPs, events, reviews and refunds stay |
| BookingProtocol.FindByKey | apps/bookingservice/src/repositories/booking.repository.ts:78-82 | Finds a row with the key, or says truly that there is none |
| BookingProtocol.FindByOrder | apps/bookingservice/src/repositories/booking.repository.ts:84-88 | Finds a row with the order, or says truly that there is none |
| BookingProtocol.LatestActive | apps/bookingservice/src/repositories/booking-otp.repository.ts:25-35 | The unused, unexpired OTP of the booking and kind after which no other such OTP was created |
| BookingProtocol.ServingIsARun | apps/bookingservice/src/service/booking.service.ts:51-566 | A request served without interruption is one of the runs of the interleaving machine, with the same database and reply |
| BookingTransitions.WritingStep | apps/bookingservice/src/repositories/booking.repository.ts:164-340 | Each status update makes of its booking's row exactly the row with the named columns, stamped with the time, if the status allows it and no fault prevents it, changes nothing else, and is reported as a success if and only if it took effect without a fault |
| BookingTransitions.OtherStepsKeepRows | apps/bookingservice/src/service/booking.service.ts:51-566 | In no other step does the row of an existing booking change |
| BookingTransitions.FindingStep | apps/bookingservice/src/repositories/booking-otp.repository.ts:25-35 | A request finds the last OTP of its booking and kind that is unused and expires later than now, and is refused if and only if there is none |
| BookingTransitions.MarkingStep | apps/bookingservice/src/service/booking-otp.service.ts:33-44 | The found OTP is marked used, with the time, if and only if the submitted one has its digest and it has not expired; otherwise the request is refused and nothing changes |
| BookingTransitions.IssuingStep | apps/bookingservice/src/utils/otp.ts:4-35 | An issued OTP is unused and expires a quarter of an hour later |
| BookingTransitions.CreateFirstStep | apps/bookingservice/src/service/booking.service.ts:60-120 | In every reachable state a create request is refused if and only if the price is below 100 paise, is answered with the booking that has its non-empty key if that is pending, confirmed or cancelled, and goes on to the gateway otherwise |
| BookingTransitions.OrderingStep | apps/bookingservice/src/service/booking.service.ts:121-135 | The gateway's order is the one the booking is inserted with; without one the request fails |
| BookingTransitions.InsertingStep | apps/bookingservice/src/service/booking.service.ts:136-195 | The insert fails if and only if its key is stored, and then the booking is read back if the key is not empty, and the violation rethrown if it is |
| BookingTransitions.ClaimingStep | apps/bookingservice/src/controllers/webhook.controller.ts:56-59 | An event id is claimed once; the second delivery is answered and does nothing |
| BookingTransitions.SettlingStep | apps/bookingservice/src/controllers/webhook.controller.ts:61-75 | An event goes on to the booking with its order; it is answered without effect if and only if there is none, or it is of another kind or lacks an order or a captured payment |
| BookingTransitions.RefundingStep | apps/bookingservice/src/service/booking.service.ts:304-323 | The gateway refunds exactly what the cancellation carries, and the request is refused if the call fails or seems to |
| BookingTransitions.ReviewingStep | apps/bookingservice/src/service/booking-review.service.ts:38-54 | A review is stored with its author and rating if the booking has none; otherwise the request ends in a conflict or, if it came upon the other review only at its insert, fails |
| BookingAccess.FirstStep | apps/bookingservice/src/service/booking.service.ts:284-566 | Cancel, assign, arrival, completion, mark-complete and review requests: NotFound if and only if there is no such booking, Forbidden if and only if the caller is not its user or provider as the request demands, and past the first step if and only if the status (and the rating) allow it too; the first step changes nothing |
| BookingAccess.PartiesAskedForEverything | apps/bookingservice/src/service/booking.service.ts:51-566 | In every interleaving each request past its first step was started, with what it carries, by the booking's user or provider as it demands; and each row's parties, slot, price and key, service person, cancellation, arrival, hand-over and completion, and each review with its rating of 1 to 5, were asked for by the one who may |
| BookingAccess.OutsidersAreTurnedAway | apps/bookingservice/src/service/booking.service.ts:284-566 | In every interleaving a request on a booking by anybody else is waiting or answered Forbidden, or NotFound if it came before the booking |
| BookingAccess.OutsidersWriteNothing | apps/bookingservice/src/service/booking.service.ts:284-566 | In every interleaving no step of such a request changes the database |
| BookingInvariant.WriteKeepsDbOk | apps/bookingservice/src/repositories/booking.repository.ts:48-340 | A justified write keeps the database invariant: outcome columns agree with the status, reached statuses have used OTPs, unique columns are unique, reviews are of completed bookings, refunds of captured payments |
| BookingInvariant.PlanIsSound | apps/bookingservice/src/service/booking.service.ts:51-566 | Every step of every request issues only justified writes and leaves the request knowing what its position promises |
| BookingInvariant.StepKeepsInv | apps/bookingservice/src/service/booking.service.ts:51-566 | Every start, step and tick of any interleaving keeps the invariant |
| BookingInvariant.RunKeepsInv | apps/bookingservice/src/service/booking.service.ts:51-566 | Every run keeps the invariant and loses nothing |
| BookingSafety.CompletedBookingsAreEvidenced | apps/bookingservice/src/service/booking.service.ts:424-566 | In every interleaving a completed booking has a payment, an assigned service person, a used arrival OTP, a used completion OTP and no cancellation data |
| BookingSafety.ReviewsAreOfCompletedBookings | apps/bookingservice/src/service/booking-review.service.ts:24-54 | In every interleaving each review is of a booking that is completed and stays unchanged in any continuation, and no booking has two |
| BookingSafety.BookingsOnlyProgress | apps/bookingservice/src/repositories/booking.repository.ts:164-340 | Between any two points of any run a booking's status moves forward only, payment and cancellation columns are written once and a finished booking is frozen |
| BookingSafety.StatusChangesAreBounded | apps/bookingservice/src/repositories/booking.repository.ts:164-340 | A booking changes status at most four times in any run |
| BookingSafety.OneRequestEndsConfirmation | apps/bookingservice/src/repositories/booking.repository.ts:218-298 | Of all cancel and confirm-arrival requests on one booking, at most one succeeds in any interleaving |
| BookingSafety.KeysAreUnique | apps/bookingservice/src/generated/prisma/internal/class.ts:22 | In every interleaving at most one booking carries a given idempotency key |
| BookingSafety.CreateIsIdempotent | apps/bookingservice/src/service/booking.service.ts:64-195 | In every interleaving all successful replies for one non-empty key name the same booking, and the order they return is the one stored |
| BookingSafety.CreatedBookingIsOwnIff | apps/bookingservice/src/service/booking.service.ts:64-195 | In every interleaving the booking a create request is answered with belongs to the requesting user if and only if its key is empty or no booking of another user carries it when the request is answered |
| BookingScenarios.KeyOfAnotherIsAnswered | apps/bookingservice/src/service/booking.service.ts:64-120 | A serial run in which a second user sends a key that is taken and is answered with the first user's booking |
| BookingSafety.OnlyEmptyKeysAreRethrown | apps/bookingservice/src/service/booking.service.ts:147-195 | A create request that ends in a rethrown unique violation had the empty key; with a non-empty key the rethrow is unreachable |
| BookingSafety.NewBookingsAreAsRequested | apps/bookingservice/src/service/booking.service.ts:121-146 | In every interleaving a booking appears only through a create request's insert, with that request's user, provider, slot, price and key, pending payment of an order no other booking has, and is what the request is answered with |
| BookingSafety.InsertIsRethrownForStoredEmptyKey | apps/bookingservice/src/service/booking.service.ts:136-195 | In any reachable state the insert is rethrown if and only if the key is empty and already stored |
| BookingScenarios.EmptyKeyIsRethrown | apps/bookingservice/src/service/booking.service.ts:64-195 | A run from the empty database with two create requests under the empty key, the second ending in the rethrown violation |
| BookingSafety.OneCompletionOtp | apps/bookingservice/src/service/booking.service.ts:520-545 | In every interleaving a booking is issued at most one completion OTP |
| BookingSafety.ExpiredCompletionOtpIsFinal | apps/bookingservice/src/service/booking.service.ts:520-566 | Once the completion OTP of a booking that awaits verification has expired unused, the status never changes again in any continuation |
| BookingSafety.StuckAfterRun | apps/bookingservice/src/service/booking.service.ts:548-566 | In any continuation such a booking still awaits verification and its OTP is still unused |
| BookingCompletion.CompletionIsPossibleIff | apps/bookingservice/src/service/booking.service.ts:520-566 | In every reachable state a booking that awaits verification can be completed by some continuation if and only if its completion OTP is active, or a request is about to issue it or holds it unexpired; otherwise it awaits verification in every continuation |
| BookingCompletion.IdleCompletionIsPossibleIff | apps/bookingservice/src/service/booking.service.ts:520-566 | Once all requests of a fault-free run are answered, such a booking has exactly one completion OTP, it is unused, and some continuation completes the booking if and only if it expires later than now |
| BookingCompletion.ActiveOtpCompletes | apps/bookingservice/src/service/booking.service.ts:548-566 | While the OTP is active, there is a run that completes the booking |
| BookingCompletion.ExpiredBookingIsStuck | apps/bookingservice/src/service/booking.service.ts:520-566 | A run from the empty database to a booking that no continuation completes, its OTP having expired |
| BookingCompletion.UnreportedHandoverIsStuck | apps/bookingservice/src/repositories/booking.repository.ts:300-317 | A run in which a fault after the status update leaves the booking awaiting verification without any completion OTP, for good |
| BookingSafety.OtpsAreRedeemedInTime | apps/bookingservice/src/utils/otp.ts:27-35 | In every interleaving no OTP is marked used after its expiry |
| BookingSafety.RefundsFollowCaptures | apps/bookingservice/src/service/booking.service.ts:284-395 | In every interleaving each gateway refund is of the payment captured for that booking, positive and within its amount |
| BookingSafety.RefundFallsWithTime | apps/bookingservice/src/service/booking.service.ts:30-43 | The refund of a user cancellation never grows with time and never exceeds the amount |
| BookingRefunds.RefundsFollowPolicy | apps/bookingservice/src/service/booking.service.ts:30-43 | In every interleaving a booking cancelled by its provider records its full amount; one cancelled by its user records what is due at some time up to the cancellation: all if and only if that is 24 hours or more before the slot, half if and only if it is from 24 down to 12 hours before, and nothing if and only if it is later; so all if cancelled 24 hours or more before the slot and at least half if 12 hours or more |
| BookingRefunds.StepKeepsDue | apps/bookingservice/src/service/booking.service.ts:302-393 | Every step keeps that each cancellation on its way, and each cancelled row, carries an amount the policy grants |
| BookingRefunds.RecordedRefundsWereMade | apps/bookingservice/src/service/booking.service.ts:304-323 | In every interleaving a refund id on a booking is that of a refund the gateway made for that booking, of exactly the recorded amount |
| BookingRefundRaces.RefundedAtMostOnce | apps/bookingservice/src/service/booking.service.ts:304-396 | In every interleaving in which at most one cancellation of the booking at a time stands between its check and its record, and no fault in an update or a refund call loses the record of a made refund, the gateway refunds it at most once |
| BookingRefundRaces.OverlapOrLossCanRefundTwice | apps/bookingservice/src/service/booking.service.ts:304-396 | Where a run first departs from that, some continuation has the booking refunded twice |
| BookingRefundRaces.SerialIsOneAtATime | apps/bookingservice/src/service/booking.service.ts:284-422 | Serial runs never depart from it |
| BookingRefundRaces.ClosedIsNeverRefundedIff | apps/bookingservice/src/service/booking.service.ts:284-396 | In every reachable state, a booking that can no longer be cancelled is never refunded in any continuation if and only if it was not refunded and no cancellation is about to call the gateway |
| BookingRefundRaces.ServedIsNeverRefundedIff | apps/bookingservice/src/service/booking.service.ts:304-326 | In every interleaving the step that confirms the arrival leaves a booking that is never refunded in any continuation if and only if it has not been refunded and no cancellation of it is about to call the gateway |
| BookingRefundRaces.ServedWithoutRefundIff | apps/bookingservice/src/service/booking.service.ts:304-326 | In every interleaving that has lost no record of a made refund to a fault, that is so if and only if no cancellation of the booking then stands between its check and its record |
| BookingRefundRaces.LostRecordHidesRefund | apps/bookingservice/src/service/booking.service.ts:376-393 | A run from the empty database in which a made refund is taken for refused, no cancellation is left, and the arrival is confirmed of a booking that has been refunded |
| BookingRefundRaces.ServedBookingCanBeRefunded | apps/bookingservice/src/service/booking.service.ts:356-396 | A run from the empty database in which the arrival is confirmed, the cancellation is answered with a conflict, and the full refund stands |
| BookingCancellation.UnpaidCancelRecordsIff | apps/bookingservice/src/service/booking.service.ts:284-323 | A cancellation of an unpaid booking goes straight to its record, without the gateway, and records a refund if and only if it is the provider's or made twelve hours or more before the slot |
| BookingCancellation.RecordedRefundWasMadeIff | apps/bookingservice/src/service/booking.service.ts:284-422 | In every interleaving, from a cancellation's check over its record to any later time: the row records what the policy granted at the check, the refund on record was made if and only if the check saw the booking paid, and there is a refund without a refund id if and only if the check saw it unpaid and granted a refund |
| BookingCancellation.RecordFollowsPolicy | apps/bookingservice/src/service/booking.service.ts:30-43 | In every interleaving the record of a user's cancellation is the full amount if and only if its check was 24 hours or more before the slot, half of it if and only if from 24 down to 12 hours before, and none if and only if later; that of a provider's is the full amount |
| BookingCancellation.RefundFollowsPolicy | apps/bookingservice/src/service/booking.service.ts:302-323 | In every interleaving what the gateway refunds for a cancellation is the payment the check saw, and that same amount |
| BookingCancellation.RefundsWereChecked | apps/bookingservice/src/service/booking.service.ts:304-386 | In every interleaving each gateway refund is that of a cancellation that had looked at the booking before |
| BookingCancellation.CancelledRowsWereChecked | apps/bookingservice/src/service/booking.service.ts:284-422 | In every interleaving each cancelled row is the record of a cancellation that had looked at the booking before |
| BookingCancellation.PaidRefundIsRecordedUnmade | apps/bookingservice/src/service/booking.service.ts:374-393 | A faultless run from the empty database to a cancelled and paid booking with its full amount on record as refunded and no refund made |
| BookingCancellation.CancelRecordsWhatItRefundsIff | apps/bookingservice/src/service/booking.service.ts:284-396 | A single cancellation that nothing interferes with records exactly what the gateway refunded for it if and only if the booking was paid, or its user cancels less than twelve hours before the slot |
| BookingCancellation.UnpaidRefundIsRecorded | apps/bookingservice/src/service/booking.service.ts:374-393 | A run from the empty database to a cancelled, never paid booking with a refund on record and none made |
| BookingSerial.OnlyNewestArrivalOtpWorks | apps/bookingservice/src/service/booking.service.ts:456-517 | In serial runs an accepted arrival OTP is the last one issued for the booking, however often the service person was reassigned, and its digest is the submitted one |
| BookingArrival.AcceptedOtpIsNewestIff | apps/bookingservice/src/service/booking.service.ts:499-517 | In every interleaving the arrival OTP a request is accepted with is the newest issued at the update if and only if no newer one had been used when the request found it and none was issued between the find and the update |
| BookingArrival.AcceptedWasFound | apps/bookingservice/src/service/booking-otp.service.ts:33-44 | In every interleaving an accepted arrival OTP was found by the same request before and is answered at its update |
| BookingArrival.OtpIssuedMeanwhile | apps/bookingservice/src/service/booking.service.ts:456-517 | A faultless run from the empty database in which a reassignment issues a new OTP while the old one is being redeemed, and the old one is accepted |
| BookingArrival.FoundOtpIsNewestIff | apps/bookingservice/src/repositories/booking-otp.repository.ts:25-35 | In every reachable state the arrival OTP a request finds is the newest issued if and only if no newer one has been used |
| BookingArrival.OlderOtpCanBeAccepted | apps/bookingservice/src/service/booking.service.ts:499-517 | A run from the empty database in which a fault keeps an arrival from being recorded and an older OTP is accepted afterwards |
| BookingSerial.LatestActiveIsNewest | apps/bookingservice/src/repositories/booking-otp.repository.ts:25-35 | While a booking is confirmed and no arrival OTP is being redeemed, the newest active arrival OTP is the newest issued one |
| BookingSerial.RefundsAreConserved | apps/bookingservice/src/service/booking.service.ts:284-422 | Between requests of a serial run a booking has at most one gateway refund, only if cancelled and paid, within its amount, and a paid cancelled booking records exactly what was refunded |
| BookingSerial.SerialRunKeepsInv | apps/bookingservice/src/service/booking.service.ts:284-566 | Serial runs keep the OTP and refund invariants behind these results |
| BookingSerial.RacingCancelsRefundTwice | apps/bookingservice/src/service/booking.service.ts:356-396 | From any state with a paid confirmed booking there is an interleaving of two provider cancellations that refunds its amount twice |
| BookingSerial.CompletionBeforeExpiry | apps/bookingservice/src/service/booking.service.ts:548-566 | If requests take no time, every completed booking was completed before its completion OTP expired |
| BookingRepository.BookingDatabase.Create | apps/bookingservice/src/repositories/booking.repository.ts:48-70 | Inserts the row unless its key or order is taken, and changes nothing else |
| BookingRepository.BookingDatabase.FindByIdempotencyKey | apps/bookingservice/src/repositories/booking.repository.ts:78-82 | Returns the row with the key, if any |
| BookingRepository.BookingDatabase.FindByRazorpayOrderId | apps/bookingservice/src/repositories/booking.repository.ts:84-88 | Returns the row with the order, if any |
| BookingRepository.BookingDatabase.UpdatePaymentCaptured | apps/bookingservice/src/repositories/booking.repository.ts:168-190 | Pending payment to confirmed with payment and time, under the status guard; otherwise, and on a fault before or after the change, a failure result |
| BookingRepository.BookingDatabase.UpdatePaymentFailed | apps/bookingservice/src/repositories/booking.repository.ts:195-212 | Pending payment to payment failed, under the status guard; otherwise, and on a fault before or after the change, a failure result |
| BookingRepository.BookingDatabase.UpdateCancelled | apps/bookingservice/src/repositories/booking.repository.ts:218-247 | Confirmed or pending payment to cancelled with who, when and refund columns, under the status guard; otherwise, and on a fault before or after the change, a failure result |
| BookingRepository.BookingDatabase.UpdateAssignedServicePerson | apps/bookingservice/src/repositories/booking.repository.ts:252-272 | Sets the service person of a confirmed booking only; otherwise, and on a fault before or after the change, a failure result |
| BookingRepository.BookingDatabase.UpdateArrivalConfirmed | apps/bookingservice/src/repositories/booking.repository.ts:277-295 | Confirmed to arrival confirmed with its time, under the status guard; otherwise, and on a fault before or after the change, a failure result |
| BookingRepository.BookingDatabase.UpdatePendingCompletionVerification | apps/bookingservice/src/repositories/booking.repository.ts:300-317 | Arrival confirmed to pending completion verification, under the status guard; otherwise, and on a fault before or after the change, a failure result |
| BookingRepository.BookingDatabase.UpdateCompleted | apps/bookingservice/src/repositories/booking.repository.ts:322-340 | Pending completion verification to completed with its time, under the status guard; otherwise, and on a fault before or after the change, a failure result |
| BookingRepository.BookingDatabase.CreateOtp | apps/bookingservice/src/service/booking-otp.service.ts:17-60 | Appends an unused OTP that expires 15 minutes from now |
| BookingRepository.BookingDatabase.MarkOtpUsed | apps/bookingservice/src/repositories/booking-otp.repository.ts:37-42 | Stamps one OTP as used and leaves the others |
| BookingRepository.BookingDatabase.CreateStrict | apps/bookingservice/src/repositories/payment-webhook.repository.ts:18-29 | Claims an event id once; a second claim fails and changes nothing |
| BookingRepository.BookingDatabase.CreateReview | apps/bookingservice/src/repositories/booking-review.repository.ts:37-49 | Inserts a review unless the booking has one |
| BookingService.BookingHandlers.CancelByUser | apps/bookingservice/src/service/booking.service.ts:284-354 | Handles the request exactly as the machine serves it, gateway call included; the booking rows change only if it succeeds or a fault strikes after the update |
| BookingService.BookingHandlers.CancelByProvider | apps/bookingservice/src/service/booking.service.ts:356-422 | The same for a provider's cancellation |
| BookingService.BookingHandlers.Create | apps/bookingservice/src/service/booking.service.ts:51-196 | Handles the request exactly as the machine serves it |
| BookingService.BookingHandlers.AnswerStored | apps/bookingservice/src/service/booking.service.ts:64-119 | Answers from the stored booking exactly when the machine's first step does |
| BookingService.BookingHandlers.InsertOrReadBack | apps/bookingservice/src/service/booking.service.ts:136-195 | Insert, conflict check and read-back end as the machine's steps do |
| BookingService.BookingHandlers.HandlePaymentCaptured | apps/bookingservice/src/service/booking.service.ts:424-447 | The booking table ends up settled by the captured event, unless a fault prevents the update |
| BookingService.BookingHandlers.HandlePaymentFailed | apps/bookingservice/src/service/booking.service.ts:449-453 | The booking table ends up settled by the failed event, unless a fault prevents the update |
| BookingService.BookingHandlers.HandleRazorpay | apps/bookingservice/src/controllers/webhook.controller.ts:51-82 | Claim, then process: the tables end up as one delivery leaves them, unless a fault prevents the update, and as the machine serves it |
| BookingService.BookingHandlers.AssignServicePerson | apps/bookingservice/src/service/booking.service.ts:456-496 | Handles the request exactly as the machine serves it; no OTP is issued unless it succeeds, and no row changes unless it succeeds or a fault strikes after the update |
| BookingService.BookingHandlers.MarkComplete | apps/bookingservice/src/service/booking.service.ts:520-545 | Handles the request exactly as the machine serves it; no OTP is issued unless it succeeds, and no row changes unless it succeeds or a fault strikes after the update |
| BookingService.BookingHandlers.VerifyOtp | apps/bookingservice/src/service/booking-otp.service.ts:33-79 | Finds, checks and marks the newest active OTP as the machine does; nothing is marked if it is refused |
| BookingService.BookingHandlers.ConfirmArrivalWithOtp | apps/bookingservice/src/service/booking.service.ts:499-517 | Handles the request exactly as the machine serves it; the booking changes only if the OTP is accepted or a fault strikes after the update |
| BookingService.BookingHandlers.VerifyCompletion | apps/bookingservice/src/service/booking.service.ts:548-566 | Handles the request exactly as the machine serves it; the booking changes only if the OTP is accepted or a fault strikes after the update |
| BookingService.BookingHandlers.CreateReview | apps/bookingservice/src/service/booking-review.service.ts:24-54 | Handles the request exactly as the machine serves it; no review is stored unless it succeeds |
| BookingServing.HandledRequestIsARun | apps/bookingservice/src/service/booking.service.ts:51-566 | What a handler does is a run of the machine that touches no other request |
| BookingServing.HandledRequestsAreSerial | apps/bookingservice/src/service/booking.service.ts:51-566 | Handling one request after a serial run gives a longer serial run, so all serial results hold of handlers called one after another without faults |
| PaymentWebhook.RedeliveriesChangeNothing | apps/bookingservice/src/controllers/webhook.controller.ts:56-59 | Any sequence of deliveries gives the tables that the sequence without repeated ids gives |
| PaymentWebhook.SettledStays | apps/bookingservice/src/service/booking.service.ts:424-453 | No sequence of deliveries changes a booking that is not pending payment, so a capture after a cancellation is ignored |
| PaymentWebhook.FirstEventWins | apps/bookingservice/src/controllers/webhook.controller.ts:51-75 | A pending booking ends up as the first claimed captured or failed event for its order leaves it, or unchanged if there is none |
| BookingEvents.EventIsActedOnIff | apps/bookingservice/src/controllers/webhook.controller.ts:56-79 | In every continuation in which no other event names the order, the payment of a claimed captured event gets onto the booking if and only if its claimer comes to write while the booking is pending and no fault prevents the update; otherwise the booking stays unpaid |
| BookingEvents.UnprocessedEventIsLost | apps/bookingservice/src/controllers/webhook.controller.ts:56-79 | If the claimer dies anywhere before its update, or has been answered without writing, the booking stays unpaid in every such continuation and every redelivery is answered OK |
| BookingEvents.ClaimerProcessesIff | apps/bookingservice/src/repositories/booking.repository.ts:168-190 | Advancing the claimer of a pending booking's event to its end confirms the booking with the payment of the event if and only if no fault prevents the update, and answers OK in any case |
| BookingEvents.EventIsClaimedFirst | apps/bookingservice/src/controllers/webhook.controller.ts:56-59 | A run from the empty database to a claimed event that is not acted on yet |
| BookingEvents.SwallowedFaultLosesPayment | apps/bookingservice/src/repositories/booking.repository.ts:187-189 | A run from the empty database in which a fault prevents the update and the event is answered OK; the booking is pending and unpaid |
| BookingEvents.RedeliveryIsAnswered | apps/bookingservice/src/controllers/webhook.controller.ts:56-59 | In every run a request that redelivers a claimed event is either waiting or answered OK |
| BookingEvents.PaymentsComeFromEvents | apps/bookingservice/src/service/booking.service.ts:424-447 | In every interleaving the payment on a booking is that of a captured event which was delivered for exactly the booking's order, and claimed |
| RateLimiter.Limiter.Prune | packages/shared/middlewares/rate-limit.middleware.ts:40-44 | Exactly the open windows stay |
| RateLimiter.Limiter.Count | packages/shared/middlewares/rate-limit.middleware.ts:50-77 | The key's window, and no other, counts the request, and it is admitted as its count says |
| RateLimiter.Limiter.Handle | packages/shared/middlewares/rate-limit.middleware.ts:46-78 | One request prunes, then counts |
| RateLimiter.PruningIsInvisible | packages/shared/middlewares/rate-limit.middleware.ts:40-63 | For every request sequence in which the clock never falls back behind the end of a window it has passed, the pruned store gives the answers of a store that keeps every key's last window |
| RateLimiter.PruningIsInvisibleIff | packages/shared/middlewares/rate-limit.middleware.ts:40-63 | For given request times and windowMs, pruning is invisible for all keys and all maxima if and only if the times meet that condition, which a clock that never goes back does |
| RateLimiter.FallingBackShows | packages/shared/middlewares/rate-limit.middleware.ts:40-63 | Any times that violate it carry requests that the two stores answer differently |
| RateLimiter.OpenWindowsDecide | packages/shared/middlewares/rate-limit.middleware.ts:46-63 | Stores with the same open windows answer every later sequence alike |
| RateLimiter.OnlyOpenWindowsAreKept | packages/shared/middlewares/rate-limit.middleware.ts:40-63 | After each request the store holds only windows that are still open and end within windowMs |
| RateLimiter.KeysAreIndependent | packages/shared/middlewares/rate-limit.middleware.ts:50-66 | A key's admissions depend on its own requests only |
| RateLimiter.WindowBound | packages/shared/middlewares/rate-limit.middleware.ts:53-77 | From the request that opens a window on, a window admits exactly the smaller of its requests and max (1 if max is below 1) |
| RateLimiter.SlidingBound | packages/shared/middlewares/rate-limit.middleware.ts:46-78 | In every half-open span of length windowMs a key is admitted at most 2*max-1 times |
| RateLimiter.SlidingBoundIsAttained | packages/shared/middlewares/rate-limit.middleware.ts:46-78 | For every max and every windowMs above 1 a request sequence attains that bound |
| RateLimiter.UnitWindowBound | packages/shared/middlewares/rate-limit.middleware.ts:46-78 | For windowMs 1 a span of that length admits exactly the smaller of its requests and max (1 if max is below 1) |
| RetryQueue.RetryMessageReadsBack | apps/userservice/src/events/user.consumer.ts:30-59 | A retry message parses to the same payload and original timestamp with the count one higher |
| RetryConsumer.Consumer.OnMessage | apps/userservice/src/events/user.consumer.ts:110-170 | The callback acknowledges, retries or dead-letters the delivery, and writes the table, as specified; for provider-only consumers it skips other accounts |
| RetryConsumer.Consumer.CreateRow | apps/userservice/src/repositories/user.repository.ts:7-31 | The upsert inserts a row once, never overwrites one, and fails on a taken e-mail or phone and on a fault, which can strike before the row is written or after |
| RetryConsumer.CallbackIsARun | apps/providerservice/src/events/provider.consumer.ts:97-160 | The callback is a crash-free run of the machine, for either consumer |
| RetryGuarantees.StepConserves | apps/userservice/src/events/user.consumer.ts:108-171 | Without a crash no action creates or loses a copy of a published message |
| RetryGuarantees.EveryMessageIsInOnePlace | apps/userservice/src/events/user.consumer.ts:81-171 | In crash-free runs every published message is in exactly one of main queue, consumer, retry queues, dead-letter queue and settled |
| RetryGuarantees.CopiesAreCounted | apps/userservice/src/events/user.consumer.ts:149-169 | In every run, crashes included, a published event has one copy plus one for each time a crash met a delivery of it between send and acknowledge |
| RetryGuarantees.CrashKeepsSingleCopyIff | apps/userservice/src/events/user.consumer.ts:152-160 | A crash leaves a single copy single if and only if no delivery of the event is handed over and not acknowledged |
| RetryGuarantees.RetryQueuesHoldTheirCount | apps/userservice/src/events/user.consumer.ts:131-160 | In every run a message in retry queue i, counted from 0, is well-formed, has retryCount i+1 and the payload it was published with |
| RetryGuarantees.DeadLettersHaveFailed | apps/userservice/src/events/user.consumer.ts:131-147 | Without crashes a well-formed message reaches the dead-letter queue after exactly 4 failures if published with count 0, 4-n with count n from 1 to 3, and 1 with any other count |
| RetryGuarantees.AttemptsAreBounded | apps/userservice/src/events/user.consumer.ts:116-160 | Without crashes no message is attempted more often than that, at most four times, and only dead letters have used up all attempts |
| RetryGuarantees.NoMessageVanishes | apps/userservice/src/events/user.consumer.ts:149-169 | With crashes at any point, also between send and acknowledge, at least one copy of every published message remains |
| RetryGuarantees.CrashCanDouble | apps/userservice/src/events/user.consumer.ts:152-160 | A crash after the send leaves both the original and its retry message |
| RetryGuarantees.RunsAreBounded | apps/userservice/src/events/user.consumer.ts:108-171 | A measure bounds the number of actions of any run in which nothing is published and nothing crashes |
| RetryGuarantees.Progress | apps/userservice/src/events/user.consumer.ts:81-98 | As long as a message is neither dead-lettered nor settled, some action of broker or consumer is possible |
| RetryGuarantees.DrainedRunsAreDone | apps/userservice/src/events/user.consumer.ts:108-171 | When the queues have run empty without a crash, every published event is either settled, with its row, or dead-lettered after all its attempts, never both |
| RetryGuarantees.AtMostTenAtATime | apps/userservice/src/events/user.consumer.ts:106 | In every run at most ten deliveries are unacknowledged, and a waiting message can be delivered if and only if there are fewer |
| RetryGuarantees.NewRowIsRefusedIff | apps/userservice/src/repositories/user.repository.ts:17-30 | An attempt without a fault fails if and only if the account has no row yet and, for users, some row has its e-mail or its phone; it adds exactly the row of the message if there is none |
| RetryGuarantees.FaultyAttempt | apps/userservice/src/events/user.consumer.ts:116-130 | A fault before the write leaves the table as it is, one after it as without the fault, and either makes the attempt fail |
| RetryGuarantees.ContactsAreUnique | apps/userservice/prisma/schema.prisma:25-26 | In every run of the user consumer no two rows share an e-mail or a phone |
| RetryGuarantees.RowsAreWrittenOnce | apps/userservice/src/repositories/user.repository.ts:17-30 | In every run a row, once created, is never changed or removed |
| RetryGuarantees.RowExistsIff | apps/userservice/src/repositories/user.repository.ts:17-30 | In every run, crashes and faults included, an account has its row if and only if some attempt for it met no fault before the write and no e-mail or phone that was taken |
| RetryGuarantees.DeadLetterCanHaveRow | apps/userservice/src/events/user.consumer.ts:130-147 | A crash-free run to its end after which a message is dead-lettered although the row of its account exists |
| RetryGuarantees.SettledEventsHaveRows | apps/userservice/src/events/user.consumer.ts:117-130 | In every run an event that was acknowledged for good has its account's row, holding the data of a message published for it |
| AuthVerification.SignupIsOk | apps/authservice/src/services/auth.service.ts:32-62 | A sign-up keeps the invariant and never violates a unique index |
| AuthVerification.SignupReplies | apps/authservice/src/services/auth.service.ts:32-62 | From any state the invariant allows a sign-up succeeds if and only if it brings an address and no identity of the same account type has its normalised e-mail or phone; each refusal has exactly its case and changes nothing |
| AuthVerification.LoginReplies | apps/authservice/src/services/auth.service.ts:109-136 | After any run each answer to a login has exactly its case: which identity of the account type has the address, whether it is active, whether the password matches and whether a code was accepted |
| AuthVerification.SendReplies | apps/authservice/src/services/auth.service.ts:242-277 | After any run a code is sent if and only if the identity exists, the value normalises to its address and no code was accepted for it; the other answers have exactly their cases and change nothing |
| AuthVerification.CodeGoesIntoOneRow | apps/authservice/src/repositories/auth.repository.ts:130-165 | A sent code, good for ten minutes, replaces that of the pending row under the value normalised twice, or comes in one new row |
| AuthVerification.VerifyReplies | apps/authservice/src/services/auth.service.ts:294-318 | After any run each answer to a submitted code has exactly its case in the pending row of the address; an accepted one verifies exactly the pending rows of the identity and type, any other changes nothing |
| AuthVerification.SendIsOk | apps/authservice/src/repositories/auth.repository.ts:130-165 | Sending a code keeps the invariant and never violates the unique index over identity, type and value |
| AuthVerification.StepKeepsOk | apps/authservice/src/services/auth.service.ts:32-318 | Every request keeps the invariant, and no reply is a unique violation |
| AuthVerification.VerificationIsAllOrNone | apps/authservice/src/repositories/auth.repository.ts:167-191 | In every run the rows of an identity and type are all pending or all verified, and verified if and only if a code was accepted |
| AuthVerification.VerifiedIsFinal | apps/authservice/src/services/auth.service.ts:235-318 | Once verified, whatever follows: the rows are frozen, none of that type is added, none is pending and no code is accepted |
| AuthVerification.CodesAreAcceptedOnce | apps/authservice/src/services/auth.service.ts:294-318 | In every run at most one code is accepted per identity and type |
| AuthVerification.AcceptedCodesAreForOwnAddress | apps/authservice/src/services/auth.service.ts:247-257 | A code is accepted only for a value that normalises like the identity's own address |
| AuthVerification.LoginNeedsAcceptedCode | apps/authservice/src/services/auth.service.ts:109-136 | After any run a login succeeds if and only if an active identity of that account type has the address, the password matches and a code for that address type was accepted |
| AuthVerification.SentCodeVerifies | apps/authservice/src/services/auth.service.ts:264-316 | After any run a code just sent, and no other, verifies the address for ten minutes |
| AuthVerification.SignupCreates | apps/authservice/src/services/auth.service.ts:49-62 | A successful sign-up adds an active identity with the normalised addresses, verifies nothing and leaves other identities alone |
| AuthVerification.SignupLeadsToLogin | apps/authservice/src/services/auth.service.ts:32-318 | After any run: sign up with an address, have a code sent, submit it within ten minutes, log in with the password; every reply is a success, in every spelling that normalises alike |
| AuthService.Service.SignUp | apps/authservice/src/services/auth.service.ts:32-62 | The tables and the reply are those of the specification, error paths included |
| AuthService.Service.SendCode | apps/authservice/src/services/auth.service.ts:235-277 | The tables and the reply are those of the specification, error paths included |
| AuthService.Service.UpsertVerificationOtp | apps/authservice/src/repositories/auth.repository.ts:130-165 | The pending row is updated, or one is created under the normalised value |
| AuthService.Service.VerifyCode | apps/authservice/src/services/auth.service.ts:294-318 | The tables and the reply are those of the specification, error paths included |
| AuthService.Service.LogIn | apps/authservice/src/services/auth.service.ts:109-136 | The reply is that of the specification, for either kind of address |
| AddressBook.NewAddressReplies | apps/userservice/src/service/address.service.ts:41-80 | A new address is saved if and only if the user exists, is the caller's, active and not deleted; each refusal has exactly its case |
| AddressBook.AddressReplies | apps/userservice/src/service/address.service.ts:16-117 | An address is updated, made default or deleted if and only if it is the user's, the caller may act for the user, it is active unless it is to be deleted, and an update names something; each refusal has exactly its case |
| AddressBook.DefaultReplies | apps/userservice/src/service/address.service.ts:119-126 | The user's active default address is returned if and only if the caller may act for the user and there is one; each refusal has exactly its case |
| AddressBook.OnlyOwnRowsChange | apps/userservice/src/service/address.service.ts:16-47 | Other users' rows never change, a rejected request changes no row, and nothing is saved for a caller that may not act for the user |
| AddressBook.OnlyNamedColumnsChange | apps/userservice/src/service/address.service.ts:93-109 | A saved request changes exactly the named columns of the named address; owners never change, and only a deletion makes an address inactive |
| AddressBook.NewAddressIsAsAsked | apps/userservice/src/service/address.service.ts:68-80 | A new address belongs to the caller's user, is active and holds the given columns, with the label "Current Location" for a saved location without one |
| AddressBook.DefaultIsLastDefault | apps/userservice/src/service/address.service.ts:56-164 | In every run a user's active default row is exactly the address last made default and not since cleared or deleted |
| AddressBook.AtMostOneDefault | apps/userservice/src/repositories/address.repository.ts:84-102 | In every run no user has two active default addresses |
| AddressBook.DefaultReturnedIsLastDefault | apps/userservice/src/service/address.service.ts:119-126 | A caller that may ask is given the address last made default and not since cleared or deleted, and told there is none exactly if there is none |
| AddressBook.DeletedIsNeverDefault | apps/userservice/src/repositories/address.repository.ts:104-109 | In every run a deleted address is not marked as default |
| AddressBook.DeletionIsFinal | apps/userservice/src/service/address.service.ts:83-164 | In every run addresses keep their owner, and a deleted one stays deleted and unchanged |
| AddressService.Service.CreateAddress | apps/userservice/src/service/address.service.ts:56-81 | The rows and the reply are those of the specification, error paths included |
| AddressService.Service.UpdateAddress | apps/userservice/src/service/address.service.ts:83-110 | The rows and the reply are those of the specification, error paths included |
| AddressService.Service.SetDefaultAddress | apps/userservice/src/service/address.service.ts:112-117 | The rows and the reply are those of the specification, error paths included |
| AddressService.Service.SaveCurrentLocation | apps/userservice/src/service/address.service.ts:128-153 | The rows and the reply are those of the specification, error paths included |
| AddressService.Service.DeleteAddress | apps/userservice/src/service/address.service.ts:159-164 | The rows and the reply are those of the specification, error paths included |
| AddressService.Service.GetDefaultAddress | apps/userservice/src/service/address.service.ts:119-126 | The reply is that of the specification, error paths included |
| HtmlEscape.PassesAreOnePass | apps/notificationservice/src/utils/email-templates.ts:22-28 | On every string the four sequential replacements equal one pass that escapes each character on its own |
| HtmlEscape.EscapedHasNoMarkup | apps/notificationservice/src/utils/email-templates.ts:22-28 | Escaped text contains no `<`, `>` or double quote |
| HtmlEscape.EscapedReadsBack | apps/notificationservice/src/utils/email-templates.ts:22-28 | Decoding the four entities of an escaped text gives the text back |
| HtmlEscape.EscapeInConcat | apps/notificationservice/src/utils/email-templates.ts:22-28 | Escaping a concatenation is concatenating the escaped parts |
| HtmlEscape.AmpersandMustComeFirst | apps/notificationservice/src/utils/email-templates.ts:24-25 | Swapping the first two passes gives the same result if and only if the text has no `<` |

## Left out

- Express routing, validation schemas, cookies and sessions; what they check is a precondition where it matters (slot duration positive).
- Notifications, the notification service's channels, avatars, favourites, provider profiles, offerings and search: no state that other parts rely on.
- Signatures, HMAC, bcrypt and tokens: a submitted booking OTP is represented by its digest, and hashing, normalising and password matching in the authentication model are arbitrary functions.
- Calls to the provider service for quotes and open intervals: price and open intervals are inputs, and configuration checks before them are omitted.
- Columns that nothing decides on (addresses and notes of bookings, comments and providers of reviews, currency, updatedAt, usernames and avatars of users); replies carry ids and orders rather than whole rows, so the re-read after an update is not modelled.
- Order of rows by createdAt is order of creation; two rows created in the same millisecond are not treated separately.
- Database faults other than in status updates, and gateway faults in creating an order: they end the request with an error, which is modelled as the request's process dying before or after the statement.
- A webhook without an id is given a random one by the source; the model starts from deliveries with ids.
- Lists and their pagination, and parsing and formatting of dates.
- No claim is made that a created booking does not overlap another one: create does not check it.
- BookingSerial.OnlyNewestArrivalOtpWorks: claimed of serial runs without faults; for all others see BookingArrival.AcceptedOtpIsNewestIff.
- BookingSerial.RefundsAreConserved: the equality of record and refund is claimed of serial runs; for every interleaving see BookingCancellation.RecordedRefundWasMadeIff and BookingRefundRaces.RefundedAtMostOnce.
- BookingRefundRaces.ServedWithoutRefundIff: requires that no record of a made refund was lost; without that see BookingRefundRaces.ServedIsNeverRefundedIff.
- BookingCancellation.CancelRecordsWhatItRefundsIff: covers one cancellation on its own; among other requests see BookingCancellation.RecordedRefundWasMadeIff.
- BookingSerial.CompletionBeforeExpiry: for requests that take time the redeeming, not the completion, is in time; see BookingSafety.OtpsAreRedeemedInTime.
- DayAvailability.OfferedSlotsAreBookable: speaks of the bookings as read for each open interval; a booking made between two reads is not seen by the earlier one, in the source as in the model.
- RetryGuarantees.AttemptsAreBounded: with crashes a message can be doubled and attempted more often; what still holds then is CopiesAreCounted and the results on rows.
- The sign-up event is published bare (`apps/authservice/src/events/user.publisher.ts:15-18`) while the consumers expect a payload and metadata, so messages start in the wrapped form; a bare one counts as malformed and is dead-lettered at once.
- Retry counts that are not integers: any count without a retry queue of its own dead-letters the message, of which the model covers the integers.
- Queue delays, reconnecting and the order in which the broker expires messages of different queues: expiry can happen at any time.
- Requests on addresses and verification codes that run at the same time; the address service's unset and write are separate statements outside setDefaultAddress.
- Finding users or providers by other keys, token refresh and logout.
