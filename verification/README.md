# Atrium: a verified model of bookings, payments and availability

Atrium sells hours in rooms, with equipment, and takes money for them through a
payment provider, Paygate, that is allowed to be slow, to answer 500, to deliver
webhooks twice, late, before their own response or with a bad signature. Its
documentation states five invariants: a room is never double-booked (INV-1),
equipment is never oversold (INV-2), a booking is charged once (INV-3), a
capture against a lapsed hold is given back and never confirmed (INV-4), and
money is never silently lost (INV-5). This project models the code that is meant
to keep them and proves how far it does, in every reachable state and over every
run.

## How the model is laid out

- `Database`, `BookingStateMachine`, `BookingsService`, `PaymentsService` and
  `PaymentsTransactions` are the API. `Api` is a value holding every table; `Db`
  is the object services mutate. Each service method runs its statements in the
  source's order on a `Db` and is tied by its `ensures` to a function on `Api`
  values; the theorems are about those functions.
- `Ledger` is the provider's ledger as atomic operations, with `MemoryLedger`
  the class over three maps. `Paygate` is the request handlers, cut into the
  steps between which other handlers may run or the process may die.
  `PostgresLedger` is the same ledger statement by statement, with row locks,
  any number of transactions interleaving, and commits.
- `Accounts`, `AtriumSystem`, `AtriumBookings`, `AtriumPolicies`, `AtriumMoney`,
  `Atrium`, `AtriumTheorems`, `AtriumRepayment`, `AtriumReport`, `AtriumTerms` and
  `AtriumScenario` are the API and the provider composed. A move is one committed
  transaction, one provider step, one message arriving, one thing under way being
  lost, or time passing. What is under way is part of the state: settlements of
  cancellations just committed, refund calls not yet received, callers still
  listening for an answer, provider handlers still running, dispatches with a
  delivery still to come. Each may be late, out of order or lost; a delivery may
  also come twice or corrupted, and a charge may be asked for again at any time,
  but a refund is asked for once, as the code does. A crash is a loss of what its
  process was doing. A run is any sequence of moves from an empty system.
- `SweepLine` (peak concurrent use), `RefundPolicy` (prices, ladders, refunds,
  and the console's second implementation), `ZonedTime` and `OperatingHours`
  (local calendars), `Availability`, `Reconciliation` and `Seed` stand beside it.
- `HoldTerms`, `PaymentTerms` and `AtriumTerms` say what all this comes to in the
  words of a request: milliseconds, units owned, minor units and the rows a
  request leaves, without the functions that compute them.

The invariant carried through every move is `Atrium.SystemOk`: the provider's
ledger is consistent; a booking, its one payment and its one charge are in one of
the states of a fixed table; the events recorded for a charge say exactly what
its payment's status says; every refund at the provider was instructed, once, for
that amount; a signed delivery is closed only when its effect is in; rooms are
exclusive, equipment is under its ceilings at every instant; and every audit
trail is one legal path.

## What the code does that its comments do not say

- `pay` and `checkout` expire a lapsed hold and then throw inside the same
  transaction, so the expiry is rolled back. Both are modelled as refusals that
  change nothing. A pending payment therefore leaves that state only through an
  event of its own charge: `PendingEndsByItsChargeEvent`.
- The refund of a late capture or a cancellation is asked for once, after the
  commit, and nothing asks again: not the effect gate on a redelivery, not a
  second cancellation, not the poll, which needs a refund id. So INV-5's "given
  back" can fail for good, and the report then lists the payment for ever.
  `RepaidIff` says exactly when: money owed on an expired or cancelled booking
  can still come back, with no line left about it, if and only if it is not
  `Stuck`, that is, if a settlement that pays, the one call, the provider's
  handler, or some news of the settled refund is still under way.
  `StuckMoneyIsListedForEver` says what the report shows otherwise. Three
  concrete runs from an empty system end stuck: a refund of nothing, which is
  never sent (`TheReportNeverClears`; `WorthNothingIff` says which cancellations
  these are), a refund of everything whose call is lost (`ALostRefundIsStuck`),
  and a cancellation whose process stops before it settles
  (`AnUnsettledCancellationIsStuck`).
- `PostgresLedger.openRefund` commits its claim even when it refuses. A retry of
  a refused refund can then never answer, where the in-memory ledger would
  re-evaluate: `RefusedRefundPoisonsItsKey`, with `RefundCommitRefinesIff` the
  exact condition. The API never causes this: `RefundsAreNeverRefused`.
- `fromLocalParts` promises the first of two instants with the same reading. It
  keeps the promise exactly when `RepeatedReadingsTakeTheFirstIff` says, and not
  in London at 01:30 on the night the clocks go back.
- Availability fetches busy slots that overlap `[from, to)` only, and drops a hold
  at the very instant its deadline falls while the hold path drops it just after.
  `ListedSlotIsRefusedIff` shows these are the only two ways a listed slot can be
  refused; `EdgeOfTheRange` and `DeadlineInstantStillBlocks` show each.
- The seed's `nextLocalMorning` says it reaches midnight of the day after, and
  after local noon it passes over a whole day: `NextMorningSkipsADayAfterNoon`.
- A delivery whose id was already recorded, even with a bad signature, is
  answered as a duplicate and not looked at. The provider mints an id per
  attempt; a delivery dropped this way all the same leaves no row, so the
  theorems count it as one that never came.
- The client reads `id` from the provider's answers about charges and refunds,
  which carry `charge_id` and `refund_id`; the poll therefore passes no refund
  id on, and the one already stored is kept.
- `loadOwnedBooking` takes no row lock, whatever its comment says. Each
  transaction is modelled as one atomic step at one clock reading.

## Model

| member | source | states |
|---|---|---|
| AtriumTheorems.CapturedMoneyIsAccountedFor | apps/api/src/admin/reconciliation.service.ts:15-60 | INV-5. In every reachable state, every charge the provider captured has its one payment row for the booking's total, and is on a confirmed booking, or given back by a settled provider refund, or owed back and listed once past grace, or awaiting its outcome and listed once past grace, or nothing the provider said about it was recorded except signed deliveries that still wait and are listed once past grace |
| AtriumTheorems.EveryCaptureLineIsReal | apps/api/src/admin/reconciliation.service.ts:160-174 | The converse: a line saying a capture is without a confirmation is always about money the provider did capture, for that amount, on a booking that expired or was cancelled |
| AtriumTheorems.FourChecksNeverFire | apps/api/src/admin/reconciliation.service.ts:176-303 | In no reachable state, window or grace does the report show a double capture, an over-refund, a refund without a capture, or a confirmation without a capture |
| AtriumTheorems.EveryBookingIsInTheJointTable | apps/api/src/payments/payments.service.ts:497-683 | In every reachable state a booking's status, its payment's status and its refund key are in the fixed joint table, and a booking has at most one payment, under its own derived key |
| AtriumTheorems.MoneyIsConserved | apps/api/src/payments/payments.service.ts:176-218 | Booking total, payment and provider charge are one amount; at most one instruction exists for a charge and asks for no more; all the provider returned on it is that one instruction; a payment recorded as refunded records exactly what the provider returned |
| AtriumTheorems.EveryChargeHasItsPayment | apps/api/src/payments/payments.service.ts:174-227 | The row is committed before the call: every charge at the provider has the payment its key names, for the amount charged, on the booking it references |
| AtriumTheorems.PaymentsOnlySettle | apps/api/src/payments/payments.service.ts:455-465 | Along any run a payment keeps its amount, charge id and refund key, its outcome is decided once, a decided payment can only go on from captured to refunded, and recorded events are never lost |
| AtriumTheorems.RedeliveryHasNoEffect | apps/api/src/payments/payments.service.ts:455-465 | A delivery whose (charge, event) already took effect closes its own row, changes nothing else and instructs nothing |
| AtriumTheorems.DeliveriesAlwaysFindTheirPayment | apps/api/src/payments/payments.service.ts:398-487 | No signed delivery about a charge is ever an unknown charge; applying it leaves its event recorded and its row closed, except exactly when it is a first capture for a live hold and no valid policy exists, and then the transaction fails and the row waits |
| AtriumTheorems.RefundsAreNeverRefused | apps/paygate/src/ledger/memory.ts:151-205 | In every reachable state the provider would open, or replay, each refund the API has instructed: never refuse it |
| AtriumRepayment.RepaidIff | apps/api/src/payments/payments.service.ts:709-760 | In every reachable state, money captured for a booking that expired or was cancelled can in some continuation be returned, with no line of any report left about it, exactly when it is not stuck: when a settlement still to run would at some time come to something, or the one refund call is still on its way, or the provider's handler still runs, or news of the settled refund can still arrive |
| AtriumRepayment.StuckMoneyIsListedForEver | apps/api/src/admin/reconciliation.service.ts:160-174 | Stuck money stays stuck: in every continuation its payment is captured and, past grace, listed; once nobody is left to write a note on it, its row never changes again |
| AtriumRepayment.LateCapturesAreOwedInFull | apps/api/src/payments/payments.service.ts:561-599 | INV-4: in every reachable state, an expired booking with a payment has an instruction to return its whole total |
| AtriumRepayment.SettlementIsLost | apps/api/src/bookings/bookings.controller.ts:93-105 | From any reachable confirmed booking: cancelled, and its process stopped before settling, its money is stuck with no refund key at all |
| AtriumRepayment.CallIsLost | apps/api/src/payments/payments.service.ts:709-775 | From any reachable confirmed booking: cancelled and settled, its one call lost, its money is stuck, whatever the refund is worth |
| AtriumRepayment.NothingToReturnIsStuck | apps/api/src/payments/payments.service.ts:709-710 | An instruction of nothing is stuck in every reachable state, whatever is under way |
| AtriumTheorems.PendingEndsByItsChargeEvent | apps/api/src/payments/payments.service.ts:144-163 | Whatever the move, a booking leaves pending payment only with the outcome of its own charge recorded by that move |
| AtriumTheorems.FreeCancellationIsListedForEver | apps/api/src/payments/payments.service.ts:709-710 | One way to be stuck, among those of `Stuck`: once a refund of zero is instructed, in every later state of the run its payment is still captured and, past grace, listed both as a capture without confirmation and as a refund never settled |
| AtriumScenario.TheReportNeverClears | apps/api/src/admin/reconciliation.service.ts:160-174 | A concrete run from an empty system to a cancellation worth nothing: the provider holds the money, it is stuck, and the report lists it |
| AtriumScenario.ALostRefundIsStuck | apps/api/src/payments/payments.service.ts:729-775 | A concrete run to a refund of the whole 100 whose one call is lost: as stuck as a refund of nothing |
| AtriumScenario.AnUnsettledCancellationIsStuck | apps/api/src/bookings/bookings.controller.ts:93-105 | A concrete run to a cancellation that never settles: stuck with no refund key |
| AtriumScenario.ConfirmedIsReachable | apps/api/src/payments/payments.service.ts:124-237 | The first seven moves of these runs reach a confirmed booking under either ladder, so the theorems about reachable states are about something |
| AtriumTheorems.WorthNothingIff | apps/api/src/payments/refund-policy.ts:123-141 | A cancellation is worth nothing exactly when neither part, at the chosen rung's percentage, comes to one minor unit |
| AtriumTheorems.CancellingInstructsTheFrozenRefund | apps/api/src/payments/payments.service.ts:786-862 | Cancelling any confirmed booking and settling it instructs the provider to return exactly what the ladder frozen on the booking gives |
| AtriumTheorems.EveryReachableStateIsSafe | apps/api/src/bookings/bookings.service.ts:143-266 | In every reachable state no two active bookings of a room come within the turnaround, no type is over its ceiling at any instant, re-arms are within their maximum and, when a hold lives no longer than a re-arm and its cap allow, deadlines are within the lifetime cap; and every audit trail is one legal path to the booking's status |
| AtriumTheorems.PoliciesAreFrozenInTime | apps/api/src/payments/payments.service.ts:517-559 | Whatever carries a policy snapshot went from pending payment to confirmed at some step strictly before its deadline, and carries still the very snapshot taken then of the policy in force for its own venue: the latest row of that venue if it ever wrote one, else the platform's latest, with that row's valid tiers |
| AtriumTerms.RoomsAndUnitsAreNeverOverbooked | apps/api/src/bookings/bookings.service.ts:143-399 | INV-1 and INV-2 in minutes and units: in every reachable state any two held, pending or confirmed bookings of one room are 900,000 ms apart, and at no instant does a hundred times the units of a type in use exceed units owned times a hundred plus the venue's buffer |
| AtriumTerms.EveryBookingKeepsItsTerms | apps/api/src/bookings/bookings.service.ts:205-266 | Every booking in a reachable state still lasts two to sixteen half hours from a half hour of the clock, in its room's venue, with that venue's equipment at the types' own rates, for its room's rate times its half hours over two plus each line's |
| AtriumTerms.AFirstCaptureDecides | apps/api/src/payments/payments.service.ts:497-600 | In every reachable state a first capture finds its booking pending; it confirms it exactly while the clock is before the deadline and a valid policy is in force, freezing that policy; from the deadline on it expires the booking and returns the whole total; in time with no policy it waits |
| AtriumTerms.SelectedRungAnswers | apps/api/src/payments/refund-policy.ts:37-141 | The rung a lead time selects is the first from the top whose hours, at 3,600,000 ms each, are left |
| AtriumTerms.RefundSpelledOut | apps/api/src/payments/refund-policy.ts:76-141 | A refund is the total less the lines' cost, at that rung's room percentage, plus the lines' cost at its equipment percentage, each rounded down |
| AtriumTerms.CancellingPaysTheRung | apps/api/src/payments/payments.service.ts:786-862 | Cancelling and settling any reachable confirmed booking instructs exactly that amount, under the ladder frozen on it |
| AtriumTerms.OneDayLadder | apps/api/src/payments/refund-policy.ts:123-141 | With everything back a day ahead and nothing after, cancelling and settling instructs the whole total exactly when 86,400,000 ms are left, and otherwise nothing |
| AtriumReport.TheReportIsTheTruth | apps/api/src/admin/reconciliation.service.ts:146-303 | In every reachable state, for any window and grace, the report's lines are exactly the true ones: a charge captured at the provider, unreturned, on an ended booking; a refund instructed and never heard of; an instructed refund the provider accepted whose outcome was never recorded; a charge with no outcome recorded; a signed delivery never applied; each in the window and past its grace |
| AtriumReport.TotalsCountTheMoney | apps/api/src/admin/reconciliation.service.ts:112-144 | In every reachable state the totals count the provider's own money: a payment created in the window adds its charge once its capture is recorded, and what the provider returned on it once the return is |
| Reconciliation.DoubleCaptureIff | apps/api/src/admin/reconciliation.service.ts:199-210 | In any tables at all, a double capture is listed for a booking exactly when two of its payments were captured in the window |
| Reconciliation.DoubleCaptureShowsTheSum | apps/api/src/admin/reconciliation.service.ts:199-210 | The line for just two captures shows their sum |
| Reconciliation.UnpaidConfirmationIff | apps/api/src/admin/reconciliation.service.ts:180-197 | In any tables, a booking is listed as confirmed without a capture exactly when it shows as paid for, changed in the window and past grace, and no payment of it was captured |
| Reconciliation.WrongRefundIff | apps/api/src/admin/reconciliation.service.ts:211-303 | In any tables, an over-refund and a refund without a capture are listed exactly when more came back than was paid, and when money came back with no capture on record |
| AtriumPolicies.MoveFreezes | apps/api/src/payments/payments.service.ts:517-559 | Whatever anyone does, a booking keeps the policy it has or freezes the one in force for its own venue at that instant; only a hold adds a booking |
| AtriumTheorems.OnceReleasedNeverLive | apps/api/src/payments/payments.service.ts:144-163 | A booking that stopped holding its room and equipment never holds them again in any run: a lapsed hold is never re-armed, paid or confirmed |
| AtriumTheorems.DeadlinesOnlyMoveLater | apps/api/src/bookings/bookings.service.ts:422-498 | Along any run re-arms never number more than the maximum and, when a hold lives no longer than a re-arm and its cap allow, only move a deadline later, never past creation plus the lifetime cap |
| AtriumTheorems.ConfirmedAccount | apps/api/src/payments/payments.service.ts:1296-1305 | A confirmed booking in a reachable state has exactly one captured payment, with its charge id, no refund key, and a refund that can be priced |
| Atrium.MoveKeeps | apps/api/src/payments/payments.service.ts:124-1029 | Every move of the API, the provider, the network or the clock keeps the whole joint invariant, only accumulates payments, events and instructions, and moves bookings only along legal paths |
| Atrium.RunKeeps | apps/api/src/payments/payments.service.ts:124-1029 | Every state of every run satisfies the joint invariant |
| Atrium.RunAdvances | apps/api/src/payments/payments.service.ts:455-465 | Between any two states of a run nothing recorded is forgotten: payments, events, calls, instructions and announcements only accumulate |
| AtriumMoney.AnnouncedIsTrue | apps/paygate/src/app.ts:188-214 | What a signed delivery says agrees with the provider's ledger: outcome, amount, refund and the booking it references |
| AtriumMoney.ApplyMoney | apps/api/src/payments/payments.service.ts:398-487 | Applying any recorded delivery, in any order and any number of times, keeps every money invariant |
| AtriumMoney.ProviderMoney | apps/paygate/src/app.ts:263-364 | Any provider step keeps every money invariant: new charges are paid for, new refunds were instructed, and what the API wrote down stays true |
| AtriumMoney.AskChargeMoney | apps/api/src/payments/payments.service.ts:897-1029 | Settling a charge by polling keeps every money invariant, whatever the provider answers |
| AtriumMoney.AskRefundMoney | apps/api/src/payments/payments.service.ts:1053-1144 | Settling a refund by polling keeps every money invariant |
| AtriumMoney.SettleMoney | apps/api/src/payments/payments.service.ts:786-862 | The money half of a cancellation keeps every money invariant and instructs at most once |
| Accounts.AdoptionIsTheGuardedWrite | apps/api/src/payments/payments.service.ts:1307-1333 | Finding a payment for an event, by charge id or by adopting the reference, always succeeds and leaves exactly what the guarded write of the 202 would have left, so either may come first |
| Accounts.PayKeeps | apps/api/src/payments/payments.service.ts:124-203 | Preparing a payment keeps the joint table, writes the booking's one payment row before any call, and changes nothing for a settled payment |
| Accounts.RecordChargeIdKeeps | apps/api/src/payments/payments.service.ts:220-229 | Recording the provider's charge id keeps the joint table, and the payment then carries the id its key opened |
| Accounts.GatedKeeps | apps/api/src/payments/payments.service.ts:432-487 | Any true event that has not taken effect moves one account to another row of the joint table, records itself, and instructs a refund only for a payment that had no refund key |
| Accounts.SettleKeeps | apps/api/src/payments/payments.service.ts:786-862 | Settling a cancellation keeps the joint table and mints at most one refund key, for an amount between nothing and what was paid |
| Accounts.RefundWithinTotal | apps/api/src/payments/payments.service.ts:1232-1252 | For any booking priced by the hold path with a frozen ladder the refund exists, lies between nothing and the total, and comes from a rung of that ladder |
| AtriumBookings.HoldProceeds | apps/api/src/bookings/bookings.service.ts:143-266 | A hold, taken or refused, keeps every property of the bookings table and its trails |
| AtriumBookings.ConfirmProceeds | apps/api/src/payments/payments.service.ts:517-559 | Confirming a live pending booking keeps every property of the bookings table and its trails |
| AtriumBookings.GatedProceeds | apps/api/src/payments/payments.service.ts:432-487 | Whatever event is applied, bookings move only along legal transitions and no row re-enters the active set |
| PaymentsService.SnapshotIsTheRowInForce | apps/api/src/payments/payments.service.ts:1157-1218 | A snapshot names the venue's own latest policy, or the platform's latest when the venue has none, with its tiers and the instant; there is none exactly when no row is in force or its ladder is malformed |
| PaymentTerms.PayIs | apps/api/src/payments/payments.service.ts:124-218 | Paying succeeds exactly for a decided payment, left alone, a hold before its deadline, or a pending payment; it leaves the booking pending under one row for its own total, and changes nothing else |
| PaymentTerms.IngestIs | apps/api/src/payments/payments.service.ts:253-382 | A delivery seen before adds nothing; any other adds one row that waits exactly when it is signed, readable and not an event nobody handles, and is otherwise closed under the first reason that holds |
| PaymentTerms.CaptureIs | apps/api/src/payments/payments.service.ts:497-600 | For any tables, every row a capture of a pending booking leaves, in time with a policy, in time without, and late |
| PaymentTerms.DeclineIs | apps/api/src/payments/payments.service.ts:602-625 | Every row a decline of a pending booking leaves |
| PaymentTerms.ReturnIs | apps/api/src/payments/payments.service.ts:627-683 | Every row a settled refund leaves, on a cancelled booking and on any other |
| PaymentTerms.TheFirstIdStays | apps/api/src/payments/payments.service.ts:207-227 | The first charge id and the first refund id told for a payment stay; another told later rewrites nothing |
| HoldTerms.AHoldIsWhatWasAskedFor | apps/api/src/bookings/bookings.service.ts:143-296 | A successful hold of n half hours adds one row, the request's own: its room, times and lines at the types' own rates, for the room's rate times n over two plus, line by line, n times rate times quantity over two |
| HoldTerms.RefusedOnCapacityIff | apps/api/src/bookings/bookings.service.ts:300-399 | A hold is refused on capacity exactly when it may be asked for, names its venue's own types, and at some instant some line together with what is in use is more than units owned and the buffer allow |
| HoldTerms.CeilingDropsTheFraction | apps/api/src/bookings/equipment-availability.ts:185-197 | A hundred ceilings are within units owned times a hundred plus the buffer, and a hundred more are not |
| HoldTerms.ShortagesAreTold | apps/api/src/bookings/bookings.service.ts:345-384 | Every shortage a refusal lists is true: the quantity asked, the most in use at any instant of the request, the ceiling and the difference |
| HoldTerms.RefusalsNameTheTypes | apps/api/src/bookings/bookings.service.ts:300-345 | Unknown types are refused first, all of them named; then types of another venue; only then is anything counted |
| HoldTerms.RoomOnlyHoldInMinutes | apps/api/src/bookings/bookings.service.ts:143-296 | A room-only hold succeeds exactly when it is asked an hour to ninety days ahead, for a length the room allows, in opening hours, and no live booking comes within 900,000 ms of it |
| HoldTerms.OfferedIff | apps/api/src/rooms/availability.service.ts:144-214 | The search offers exactly the slots of that length on the half hour, in range, 3,600,000 ms or more ahead, in the posted hours of some local day, held by no booking that starts in range |
| HoldTerms.WhatTheSchemaAdmits | apps/api/src/bookings/bookings.schemas.ts:23-96 | A request is admitted exactly when it is two to sixteen half hours from a half hour of the clock, with at most fifty different types |
| HoldTerms.CheckoutSucceedsIff | apps/api/src/bookings/bookings.service.ts:422-498 | Checkout succeeds exactly for a hold or pending payment before its deadline with a re-arm and some lifetime left; the new deadline is the earlier of a full re-arm and the end of that lifetime, and nothing but that row and the trail changes |
| HoldTerms.CancelSucceedsIff | apps/api/src/bookings/bookings.service.ts:511-535 | Cancelling succeeds exactly for a held or a confirmed booking, and changes its status and nothing else of it |
| HoldTerms.TransitionsAreTheMoves | apps/api/src/bookings/booking-state-machine.service.ts:40-187 | A transition happens exactly along the ten legal moves, from an expected status when one is given, leaving one row moved and one audit row |
| PaymentsTransactions.PreparePayment | apps/api/src/payments/payments.service.ts:130-203 | The transaction before the provider call, statement by statement; its expiry of a lapsed hold is taken back by its own refusal |
| PaymentsTransactions.StoreChargeId | apps/api/src/payments/payments.service.ts:220-229 | The write guarded by a null charge id and a unique column |
| PaymentsTransactions.FindPayment | apps/api/src/payments/payments.service.ts:1286-1294 | The payment carrying a charge id, found exactly when there is one |
| PaymentsTransactions.FindCapturedPayment | apps/api/src/payments/payments.service.ts:1296-1305 | The captured payment of a booking, found exactly when there is one |
| PaymentsTransactions.IngestDelivery | apps/api/src/payments/payments.service.ts:253-333 | Verify, record, answer: unauthorised exactly for a bad signature, duplicate exactly for a delivery id already recorded, and rows nothing will act on are closed at once |
| PaymentsTransactions.RecordDelivery | apps/api/src/payments/payments.service.ts:335-368 | Insert once per delivery id |
| PaymentsTransactions.ChargeSucceededEffect | apps/api/src/payments/payments.service.ts:497-600 | The capture handler, update by update |
| PaymentsTransactions.ChargeFailedEffect | apps/api/src/payments/payments.service.ts:602-625 | The decline handler, update by update |
| PaymentsTransactions.RefundSucceededEffect | apps/api/src/payments/payments.service.ts:627-683 | The refund handler, update by update |
| PaymentsTransactions.RunGated | apps/api/src/payments/payments.service.ts:455-484 | The handler runs exactly when the (charge, event) insert wins |
| PaymentsTransactions.AdoptPayment | apps/api/src/payments/payments.service.ts:1307-1333 | Claim a pending payment by the echoed booking reference, or find it already carrying the charge |
| PaymentsTransactions.ApplyRecordedDelivery | apps/api/src/payments/payments.service.ts:398-487 | One recorded delivery in one transaction; any failure leaves the database as it was |
| PaymentsTransactions.SettleCancelledBooking | apps/api/src/payments/payments.service.ts:786-862 | The money half of a cancellation, read from the frozen snapshot |
| PaymentsTransactions.SettleAcceptedCharges | apps/api/src/payments/payments.service.ts:897-1029 | Poll each stale charge in turn through the same gate; one failure does not stop the rest; instructions come out in order; the count is exactly the inserts this replica won and committed |
| PaymentsTransactions.SettleAcceptedRefunds | apps/api/src/payments/payments.service.ts:1053-1144 | Poll each unsettled refund in turn through the same gate, counting only inserts this replica won |
| Reconciliation.RunReport | apps/api/src/admin/reconciliation.service.ts:66-145 | Over exactly the discrepancies the nine checks find in the database: the counts by kind add up to all of them, at most the limit is listed, the newest first and none newer left out, truncation is reported exactly when the limit is below the count, and the totals are the window's sums and counts |
| BookingInvariants.HoldKeepsBookings | apps/api/src/bookings/bookings.service.ts:143-266 | A hold keeps rooms exclusive, equipment under its ceilings at every instant and deadlines bounded |
| BookingInvariants.EvolvingKeepsBookings | apps/api/src/bookings/booking-state-machine.service.ts:40-52 | Because no legal transition re-enters the active set, steps that only move existing rows keep room exclusion and equipment ceilings without checking again |
| BookingInvariants.RoomOnlyHoldSucceedsIff | apps/api/src/bookings/booking-state-machine.service.ts:104-138 | A bookable room-only hold succeeds exactly when no unexpired hold, pending payment or confirmed booking of the room comes within the turnaround; otherwise it is refused as taken |
| BookingInvariants.CapacityRefusalIff | apps/api/src/bookings/bookings.service.ts:300-399 | A hold is refused on capacity exactly when it is bookable, asks only for known types of its venue, and some type would be over its ceiling at some instant |
| BookingInvariants.AdmissionIsExact | apps/api/src/bookings/bookings.service.ts:300-399 | Equipment is admitted exactly when every type is known, of the room's venue, and fits at every instant |
| BookingInvariants.AdmittedFits | apps/api/src/bookings/bookings.service.ts:300-399 | Adding the admitted items keeps every type under its ceiling at every instant |
| BookingInvariants.SortedIdsExact | apps/api/src/bookings/equipment-availability.ts:96-123 | Types are locked in ascending order, each requested type once |
| BookingInvariants.CheckoutRearms | apps/api/src/bookings/bookings.service.ts:422-498 | A re-arm happens only before the deadline, never moves it earlier or past the lifetime cap, counts once, and leaves the status alone |
| BookingsService.PeakUsageIsMaximum | apps/api/src/bookings/equipment-availability.ts:125-183 | The swept peak is reached at some instant of the window and exceeded at none, counting live bookings |
| BookingsService.PeakConcurrentUsage | apps/api/src/bookings/equipment-availability.ts:125-183 | A peak for every type asked about, zero where the query returns no row |
| BookingsService.AdmitRequestedEquipment | apps/api/src/bookings/bookings.service.ts:300-399 | The admission loop: unknown types, then foreign ones, then every shortfall, then prices |
| BookingsService.HoldRoom | apps/api/src/bookings/bookings.service.ts:89-266 | The hold path in one transaction; a refusal leaves the database as it was |
| BookingsService.CheckoutBooking | apps/api/src/bookings/bookings.service.ts:422-498 | Checkout in one transaction; expiring a lapsed hold is undone by its own refusal |
| BookingsService.CancelBooking | apps/api/src/bookings/bookings.service.ts:511-527 | Cancel through the state machine, or change nothing |
| BookingStateMachine.TransitionBooking | apps/api/src/bookings/booking-state-machine.service.ts:141-186 | A transition happens exactly when expected and legal, with one audit row |
| BookingStateMachine.RecordBookingSideEffect | apps/api/src/bookings/booking-state-machine.service.ts:197-241 | A side effect changes its columns and appends a row that moves nothing |
| BookingStateMachine.CreateHeldBooking | apps/api/src/bookings/booking-state-machine.service.ts:104-138 | A hold is inserted exactly when its occupied interval is free, and its trail begins at DRAFT |
| BookingStateMachine.ExpireRoom | apps/api/src/bookings/booking-state-machine.service.ts:257-288 | Exactly the room's stale holds expire, one audit row each |
| BookingStateMachine.ExpireOldest | apps/api/src/bookings/booking-state-machine.service.ts:294-332 | At most the limit of stale unlocked holds expire, the oldest deadlines first, and none is left unless the limit was reached |
| BookingStateMachine.TransitionKeepsTrails | apps/api/src/bookings/booking-state-machine.service.ts:141-186 | A transition extends the trail to the new status |
| BookingStateMachine.CreateHeldKeepsTrails | apps/api/src/bookings/booking-state-machine.service.ts:104-138 | A creation begins a trail and leaves every other alone |
| BookingStateMachine.ExpireRowsKeepsTrails | apps/api/src/bookings/booking-state-machine.service.ts:257-332 | Expiring any batch of stale holds extends each one's trail by one step |
| BookingStateMachine.SideEffectRowKeepsTrails | apps/api/src/bookings/booking-state-machine.service.ts:197-241 | A row whose two states agree moves no trail |
| SweepLine.PeakIsExact | apps/api/src/bookings/equipment-availability.ts:135-177 | The largest prefix sum equals the greatest total in use at any instant of the window, and is never above the sum of all overlapping uses |
| SweepLine.SweepIsPointwiseMaximum | apps/api/src/bookings/equipment-availability.ts:135-177 | For any order of the clipped events with ends before starts at the same instant, the largest prefix sum is the pointwise maximum |
| SweepLine.NetIgnoresOrder | apps/api/src/bookings/equipment-availability.ts:156-173 | The order among equal events makes no difference |
| SweepLine.UsageWithinOverlapSum | apps/api/src/bookings/equipment-availability.ts:10-58 | Use at any instant is within the naive sum over overlapping bookings |
| Ledger.OpenChargeKeeps | apps/paygate/src/ledger/memory.ts:80-125 | Opening, replaying or mismatching a charge keeps the ledger consistent and changes nothing already opened |
| Ledger.OpenChargeAnswers | apps/paygate/src/ledger/memory.ts:80-125 | What a request is answered with is the charge its own key and body claimed, or a mismatch that changes nothing; never a broken record |
| Ledger.OpenRefundKeeps | apps/paygate/src/ledger/memory.ts:151-205 | Opening a refund keeps the refunded total equal to the sum of the charge's own distinct refunds and within the charge |
| Ledger.OpenRefundAnswers | apps/paygate/src/ledger/memory.ts:151-205 | A refund is created exactly on a succeeded charge with that much left, replayed as its own earlier self, or refused for the reason it is answered with, with nothing changed |
| Ledger.MaterialiseChargeKeeps | apps/paygate/src/ledger/memory.ts:127-138 | A charge is decided once and its money does not change |
| Ledger.RecoverKeeps | apps/paygate/src/ledger/memory.ts:140-149 | Recovering from a transient failure makes the record accepted and disturbs nothing else |
| Ledger.MaterialiseRefundKeeps | apps/paygate/src/ledger/memory.ts:207-214 | Settling a refund keeps the ledger consistent |
| MemoryLedger.MemoryLedger.OpenCharge | apps/paygate/src/ledger/memory.ts:80-125 | The three maps, mutated in place, do what the atomic ledger does |
| MemoryLedger.MemoryLedger.MaterialiseCharge | apps/paygate/src/ledger/memory.ts:127-138 | As the atomic ledger; a late caller is told it was decided |
| MemoryLedger.MemoryLedger.RecoverFromTransientFailure | apps/paygate/src/ledger/memory.ts:140-149 | As the atomic ledger |
| MemoryLedger.MemoryLedger.OpenRefund | apps/paygate/src/ledger/memory.ts:151-205 | As the atomic ledger, every refusal included |
| MemoryLedger.MemoryLedger.MaterialiseRefund | apps/paygate/src/ledger/memory.ts:207-214 | As the atomic ledger |
| Paygate.ProviderStepKeeps | apps/paygate/src/app.ts:263-364 | Every step of every handler, interleaved anyhow, keeps records resolving and amounts fixed; a charge or refund is decided exactly when exactly one dispatch announces it, truthfully |
| Paygate.RunsOnlyGrow | apps/paygate/src/app.ts:188-214 | Over any run of requests, retries, concurrent recoveries and crashes: no amount changes, an outcome once decided stays, and each decided charge and refund has exactly one announcement for ever, a charge first answered 500 included |
| Paygate.RetriedRequest | apps/paygate/src/app.ts:263-364 | Whatever the first request under a key came to, a second opens no second charge: the same request is answered 202 with the charge decided, declined exactly at the declining amount, and announced once in all, also after a first 500; a different one is answered 409 and changes nothing |
| Paygate.PaygateApp.PostCharges | apps/paygate/src/app.ts:263-364 | The charge handler from start to end: its status code and the state it leaves |
| Paygate.PaygateApp.PostRefunds | apps/paygate/src/app.ts:374-464 | The refund handler from start to end: its status code for each outcome and the state it leaves |
| Paygate.PaygateApp.MaterialiseCharge | apps/paygate/src/app.ts:188-214 | Only the caller that decided the outcome dispatches |
| PostgresLedger.EveryStepSimulates | apps/paygate/src/ledger/postgres.ts:113-324 | Under any interleaving each statement is invisible to the atomic ledger except a commit, or a conditional update, which is one of its operations with the same answer |
| PostgresLedger.RunsSimulate | apps/paygate/src/ledger/postgres.ts:113-324 | Every run of concurrent transactions simulates the atomic ledger, and while no refused refund has committed the tables are the atomic ledger row for row |
| PostgresLedger.StepKeeps | apps/paygate/src/ledger/postgres.ts:113-324 | Every statement keeps locks exclusive, what each transaction read still true, and the ledger they protect consistent |
| PostgresLedger.ChargeCommitRefines | apps/paygate/src/ledger/postgres.ts:113-178 | Committing an openCharge, as winner, replay or mismatch, is the atomic openCharge at that instant with the same answer |
| PostgresLedger.RefundCommitRefinesIff | apps/paygate/src/ledger/postgres.ts:223-302 | Committing an openRefund that is not a refusal is the atomic openRefund exactly when no refused refund has used the key |
| PostgresLedger.RefusalIsDecidedAtTheRead | apps/paygate/src/ledger/postgres.ts:272-287 | A refusal is the atomic ledger's answer at the instant the charge row was read |
| PostgresLedger.RefusalCommitsOnlyItsClaim | apps/paygate/src/ledger/postgres.ts:227-287 | A refused refund commits its claim and nothing the atomic ledger can see |
| PostgresLedger.OrphanedRetryNeverAnswers | apps/paygate/src/ledger/postgres.ts:236-262 | A retry of a refused refund can neither load its resource nor commit |
| PostgresLedger.RecoverCommitRefines | apps/paygate/src/ledger/postgres.ts:197-217 | Committing a recovery is the atomic recovery |
| PostgresLedger.EarlyRefundIsRefused | apps/paygate/src/ledger/postgres.ts:227-287 | A concrete run from empty tables: a charge is opened, a refund before it settles is refused, and its claim commits |
| PostgresLedger.RefusedRefundPoisonsItsKey | apps/paygate/src/ledger/postgres.ts:236-262 | The run continued: once the charge has succeeded the retry is in a reachable state from which it can neither load nor commit, where the atomic ledger would open the refund |
| RefundPolicy.RefundIsBoundedAndExact | apps/api/src/payments/refund-policy.ts:76-141 | Splitting a priced total recovers its two parts exactly; for any valid ladder the refund exists, is between nothing and the total, loses less than one minor unit per part, and a 100/100 rung returns it all |
| RefundPolicy.ValidLadderAnswersWithHighestClearedRung | apps/api/src/payments/refund-policy.ts:37-90 | A valid ladder answers every lead time, with the highest rung it clears |
| RefundPolicy.LeadClears | apps/api/src/payments/refund-policy.ts:123-130 | A lead time clears a threshold exactly when that many hours of 3,600,000 ms are left |
| RefundPolicy.LaddersAre | apps/api/src/payments/refund-policy.ts:37-90 | A ladder is valid exactly when it has percentages, each threshold below all before it, and a last threshold of zero |
| WebRefund.PreviewAgreesWithApi | apps/web/lib/refund.ts:41-114 | The console's preview shows the API's split, rung and refund for every booking and ladder |
| ZonedTime.UniqueReadingsInvert | apps/api/src/common/time/zoned-time.ts:85-125 | A reading that names exactly one instant is inverted, and converts back |
| ZonedTime.RepeatedReadingsTakeTheFirstIff | apps/api/src/common/time/zoned-time.ts:92-125 | For a reading shown twice, exactly when the first occurrence is the one returned |
| ZonedTime.SkippedReadingsGoForwardIff | apps/api/src/common/time/zoned-time.ts:92-125 | For a reading never shown, exactly when the result lies after the gap |
| ZonedTime.LondonFallBackTakesTheSecond | apps/api/src/common/time/zoned-time.ts:92-125 | 01:30 in London on the fall-back night gives the second occurrence |
| ZonedTime.WeekGoesRound | apps/api/src/common/time/zoned-time.ts:64-82 | Weekdays come round one by one from 1 January 1970, a Thursday; 26 October 2025 is a Sunday |
| ZonedTime.ClocksReadBack | apps/api/src/common/time/zoned-time.ts:127-136 | A clock string is read as a time exactly when it shows that time, from 00:00 to 24:00 |
| ZonedTime.FromLocalParts | apps/api/src/common/time/zoned-time.ts:108-125 | The loop of at most three corrections |
| OperatingHours.TwoDaysSuffice | apps/api/src/common/time/operating-hours.ts:146-160 | In a fixed-offset zone, testing the start's local day and the day before is the same as lying inside some day's window |
| OperatingHours.OpenWindowsAreExact | apps/api/src/common/time/operating-hours.ts:163-204 | Over at most 366 days, exactly the windows that meet the range, of any local day, in ascending order; the 800-step guard never cuts it short |
| OperatingHours.WindowShape | apps/api/src/common/time/operating-hours.ts:72-125 | A day's window opens on that day, is never empty and lasts at most a day |
| OperatingHours.WithinHoursIff | apps/api/src/common/time/operating-hours.ts:72-160 | In a fixed-offset zone a slot is within hours exactly when it lies between the posted opening and closing of some day, its weekday counted from a Thursday on day 0, hours that close no later than they open running into the next day |
| OperatingHours.ClosedOnSundays | apps/api/src/common/time/operating-hours.ts:72-160 | At a venue on UTC closed on Sundays the same slot is admitted on a day d exactly when d % 7 is not 3 |
| OperatingHours.NextDayAcrossATransition | apps/api/src/common/time/operating-hours.ts:127-138 | Stepping a day on from local noon lands on the next local day, across any one change of the clocks of less than six hours |
| OperatingHours.SkippedClosingRunsToMidnight | apps/api/src/common/time/operating-hours.ts:100-125 | In London on the night clocks go forward, hours from 00:50 to a skipped 01:10 run to the next midnight |
| OperatingHours.WalkDays | apps/api/src/common/time/operating-hours.ts:163-204 | The guarded walk over local days |
| OperatingHours.CollectOpenWindows | apps/api/src/common/time/operating-hours.ts:163-204 | The walk, then the sort by opening |
| Availability.EnumerateIsExact | apps/api/src/rooms/availability.service.ts:172-214 | Exactly the grid starts in range whose slot lies in one open window, starts late enough and clashes with nothing fetched as busy |
| Availability.ListedSlotIsRefusedIff | apps/api/src/rooms/availability.service.ts:144-214 | A listed slot is refused to a room-only hold exactly when a booking in its way starts at or after the end of the searched range, or is a hold whose deadline is this instant |
| Availability.ListedSlotWithRoomToSpare | apps/api/src/rooms/availability.service.ts:144-160 | When the slot ends a turnaround before the range does, only a hold at its deadline's very instant can refuse it |
| Availability.EdgeOfTheRange | apps/api/src/rooms/availability.service.ts:144-160 | A concrete booking at the edge of the range that is not fetched, and refuses the last slot |
| Availability.ClashIff | apps/api/src/rooms/availability.service.ts:144-205 | A slot clashes exactly when a live booking of the room that starts before the range ends comes within the turnaround of it |
| Availability.EnumerateSlots | apps/api/src/rooms/availability.service.ts:172-214 | The loop over windows |
| Availability.EnumerateWindow | apps/api/src/rooms/availability.service.ts:182-211 | The cursor's walk along the grid inside one window |
| Availability.CollectBusyIntervals | apps/api/src/rooms/availability.service.ts:144-160 | The live bookings of the room that overlap the range, with their turnaround |
| Availability.FreeRoomIds | apps/api/src/rooms/availability.service.ts:224-244 | Exactly the asked-for rooms with no live booking the exclusion predicate would reject the window for |
| Availability.FreeRoomTakesTheHold | apps/api/src/rooms/availability.service.ts:224-244 | A bookable room-only hold succeeds exactly on rooms found free, away from a deadline's very instant |
| Seed.Apportion | apps/api/src/db/seed.ts:1268-1315 | For any weights, exactly the smaller of the total and the whole capacity is given out, and no room gets more than it can hold; when every room is due at least one by weight, each is full or has its share by weight, rounded down |
| Seed.SweepSpare | apps/api/src/db/seed.ts:1299-1312 | What rounding left over is all placed, the roomiest rooms first |
| Seed.StrideIsExact | apps/api/src/db/seed.ts:1490-1503 | Over the counted candidates the stride takes exactly the target |
| Seed.StrideIsEven | apps/api/src/db/seed.ts:1430-1455 | Any run of consecutive candidates gets its fair share to within one booking |
| Seed.WalkRoomCalendar | apps/api/src/db/seed.ts:1452-1536 | Emits exactly the smaller of target and capacity, and exactly the strided candidates |
| Seed.CandidateSlots | apps/api/src/db/seed.ts:1343-1403 | The generator's cursor walk |
| Seed.NextSlot | apps/api/src/db/seed.ts:1343-1403 | The generator's cursor walk to its next slot, or to its end |
| Seed.CountRoomSlots | apps/api/src/db/seed.ts:1317-1332 | Drawing every slot and keeping only the count gives the number of candidates the emitting walk will see |
| Seed.CandidatesAreApartAndOpen | apps/api/src/db/seed.ts:1334-1403 | Whatever is drawn, candidates keep the turnaround apart, never precede the start, and each lies inside one day's opening |
| Seed.CandidatesArePacked | apps/api/src/db/seed.ts:1334-1403 | On any calendar, whatever is drawn, every candidate is one to four hours in half hours and follows the last by exactly 900,000 ms unless it begins a day |
| Seed.OpeningSpelledOut | apps/api/src/db/seed.ts:1343-1403 | A day opens at the hour of its posted opening and closes at the hour of its posted closing, minutes dropped; a day without hours does not open |
| Seed.TypesTakeTurns | apps/api/src/db/seed.ts:1470-1523 | The rooms of a venue take its types in turn, and a booking has its room's type exactly when its draw says so |
| Seed.SeededSlotsAreInHours | apps/api/src/db/seed.ts:1343-1403 | In a fixed-offset venue that opens on the hour, every seeded slot passes the API's own opening-hours test |
| Seed.SeededSlotsAreInHoursAcrossATransition | apps/api/src/db/seed.ts:1343-1403 | In a venue whose clocks change once, by at most half a day and by no more than its opening is from midnight, every seeded slot keeps the turnaround and passes the API's own opening-hours test, on the day of the change too |
| Seed.TransitionMorningsAdvance | apps/api/src/db/seed.ts:1647-1652 | The next morning is always later, in any zone whose clocks change once by at most half a day |
| Seed.NextMorningSkipsADayAfterNoon | apps/api/src/db/seed.ts:1647-1652 | The next morning is the next local day's midnight exactly before local noon, and the day after that from noon on |
| Seed.SeedNeverOversells | apps/api/src/db/seed.ts:1470-1486 | At no instant does a venue use more of a type than its rooms over its types, rounded up |
| Seed.SeededVenueIsSafe | apps/api/src/db/seed.ts:1452-1536 | Whatever the draws and targets, a seeded venue's rooms keep the turnaround apart and its equipment use stays within that bound |

## Left out

- HTTP, authentication, roles and tenants, logging, correlation ids on the API side, health, configuration, migrations and the web console other than its refund preview: plumbing around the modelled behaviour.
- Signatures are a boolean on a delivery, and what verifies is taken to have been signed by the provider; uuids are positions or fresh numbers; a request fingerprint is the body it digests; the currency is one.
- Transactions of the API are atomic steps at one clock reading: row and advisory locks, deadlock retries and isolation are not modelled there (the provider's Postgres ledger is, statement by statement).
- Floating point: ceilings, hours and shares are exact integers or rationals.
- Time zones beyond fixed offsets in the calendar theorems, and beyond one transition in the inversion theorems; `Intl` is an abstract offset function and a local date is a day number.
- Restarts of the provider that forget: the composed system runs over the atomic ledger, whose charges and refunds are never lost, so the poll's answer that a charge is unknown cannot occur in a reachable state; the in-memory store's loss on restart is not modelled.
- Liveness: nothing says a charge that never materialises is ever resolved, or that a waiting delivery is ever applied; `RepaidIff` says what can still happen, not that it does. It covers money captured for bookings that ended, not pending payments whose charge the provider never decides.
- COMPLETED is a legal status that no modelled code ever reaches.
- Bulk import of charges, test routes and seeded payments, which bypass the protocol.
- Chaos rates and generators: every choice they make is any choice here.
- Search paging, revenue reports and the administration of venues and policies: easy members only. The text of the report's lines is not modelled either.
- The order in which a charge's refunds are listed by the Postgres ledger, which the source takes from creation times.
- The choice of at most fifty stale rows a poll starts from is a parameter of the polling loops.
- Availability's own checks on the range and the duration, taken as conditions; the order of its busy list.
- A seeded booking's status, customer, price and creation time, and clocks in the seed's hours that do not begin with two digits.
- AtriumTheorems.CapturedMoneyIsAccountedFor: the report lists a row only inside its window and past grace, and each write to a payment starts its grace again, so the listing is conditional on both.
- OperatingHours.OpenWindowsAreExact: stated for fixed-offset zones whose doors open before midnight.
- OperatingHours.TwoDaysSuffice: stated for fixed-offset zones whose doors open before midnight.
- OperatingHours.WithinHoursIff: stated for fixed-offset zones whose doors open before midnight.
- OperatingHours.WindowShape: stated for fixed-offset zones whose doors open before midnight.
- Availability.EnumerateIsExact: stated for fixed-offset zones whose doors open before midnight.
- HoldTerms.OfferedIff: stated for fixed-offset zones whose doors open before midnight.
- Availability.ListedSlotIsRefusedIff: stated for fixed-offset zones whose doors open before midnight.
- Seed.SeededSlotsAreInHours: stated for fixed-offset zones and doors that open on the hour; `SeededSlotsAreInHoursAcrossATransition` covers one change of the clocks for doors that also close on the hour, later the same day, as every seeded venue's do.
- Seed.OpeningSpelledOut: stated for fixed-offset zones.
- Seed.NextMorningSkipsADayAfterNoon: stated for fixed-offset zones.
