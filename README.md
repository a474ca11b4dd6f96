# Pilates studio reservations: a Dafny model

This project models the booking and payment rules of a pilates studio reservation system. The system has a Go backend (Fiber handlers over GORM/Postgres, with Midtrans as the payment provider) and a Next.js web client.

**Backend.** The database is a value of `Store.Tables`: five maps from primary key to row, for users, courts, schedules, reservations and payments. The models' column constraints are gathered in `Store.Valid`:
- the unique `reservations.schedule_id`;
- the unique payment order id;
- foreign keys;
- `decimal(10,2)` and `varchar(10)` widths;
- the reservation and payment status domains.

A `Store.Database` object holds the committed tables. Each state-changing HTTP handler is a method that works on a copy of those tables, its transaction. It either assigns the copy back (commit) or drops it (rollback). The method's `ensures` equates the committed tables and the answered HTTP status with an outcome function of the old tables, such as `CreateOutcome`, `CancelOutcome` or `WebhookOutcome`. The handler's properties are stated on that function:
- which status answers which input;
- exactly what is written;
- that every error leaves the store unchanged;
- that `Valid` is preserved.

The read-only endpoints are methods that change nothing. Their results are stated as the set of selected ids and the `ORDER BY` key the listing is sorted by.

**Frontend.** The web client is modelled rule by rule:
- the page guard in `proxy.ts`;
- the session provider's redirects;
- the member dashboard's statistics and tabs;
- the payment result page;
- the admin week grid;
- the four-step booking wizard with its `handleBook` flow.

Components that keep state become classes whose methods update that state. Router calls and backend requests are recorded in sequence fields. What the backend, the payment window or the clock answer is passed in as a parameter.

A calendar day is a `Calendar.Date`. Every valid date has a day number counted from 0001-01-01 (day 0, a Monday), which makes "the next day" and "seven days earlier" integer arithmetic. The text form is Go's "2006-01-02" layout. `Calendar.ParseFormat` and `Calendar.FormatParse` prove it round-trips.

## Model

| member | source | states |
|---|---|---|
| CourtModel.WithDefaults | backend/models/court.go:7-16 | an inserted court gets capacity 1 when given 0 and is active; name, description and price are kept |
| ScheduleModel.WithDefaults | backend/models/schedule.go:7-17 | an inserted schedule is available (the default of a false flag); court, date and times are kept |
| ReservationModel.Stored | backend/models/reservation.go:15 | a status text is stored iff it is "" or one of pending/confirmed/paid/cancelled/refunded; "" becomes pending |
| ReservationModel.StoredName | backend/models/reservation.go:15 | every status round-trips through its text; "failed" is no reservation status |
| PaymentModel.Stored | backend/models/payment.go:13 | a payment status text is stored iff it is "" or pending/success/failed/refunded; "" becomes pending |
| PaymentModel.StoredName | backend/models/payment.go:13 | every payment status round-trips through its text |
| Store.AtMostOneReservationPerSchedule | backend/models/reservation.go:13 | the unique schedule_id allows one reservation row per schedule, so at most one active booking |
| Store.OrderLookupUnique | backend/models/payment.go:11 | the unique order id: a lookup by order id matches at most one payment |
| Store.PaymentLookupUnique | backend/controllers/reservation.go:379 | under the one-payment-per-reservation invariant, the payment lookup of a reservation matches at most one row |
| Store.InsertReservation | backend/models/reservation.go:7-21 | the insert succeeds iff the key is fresh, the foreign keys exist, the amount fits and the schedule has no row yet; it adds exactly that row |
| Store.InsertPayment | backend/models/payment.go:7-20 | the insert succeeds iff the key and order id are fresh, the reservation exists and the amount fits; it adds exactly that row |
| Store.InsertSchedules | backend/controllers/schedule.go:82-86 | the single multi-row insert fails as a whole on an empty batch, more than 65535 bind parameters (7 per row), a taken key, a missing court or a column overflow; otherwise it adds every row with its defaults |
| Store.SetAvailability | backend/controllers/reservation.go:260-265 | the update changes only `is_available` of the one schedule, and nothing when the id matches no row |
| Store.SetStatus | backend/controllers/reservation.go:418-421 | the update changes only the status of the one reservation, and nothing when the id matches no row |
| Store.InsertBookingKeepsValid | backend/controllers/reservation.go:275-310 | a reservation row followed by its first payment row keeps every table constraint |
| Store.CourtOf | backend/controllers/admin_controller.go:147-148 | a court lookup whose error is ignored gives the row, or a zero court of capacity 0 |
| Store.First | backend/controllers/reservation.go:526-530 | `First` finds a row iff one matches, and then the least key among them |
| Calendar.ParseFormat | backend/controllers/reservation.go:103 | a date of years 1 to 9999 formatted "2006-01-02" parses back to itself |
| Calendar.FormatParse | backend/controllers/reservation.go:173 | a text that parses as "2006-01-02" is the format of the date it names |
| Calendar.NextDay | backend/controllers/schedule.go:66 | `AddDate(0, 0, 1)` gives a valid date whose day number is one more |
| Calendar.DateLeIffDayNumberLe | backend/controllers/schedule.go:66 | `!a.After(b)` on dates agrees with comparing day numbers |
| ReservationController.MarkPaidOutcome | backend/controllers/reservation.go:32-84 | 404 unless the caller owns the reservation; 400 unless it is pending, or when the provider answers with another status; otherwise reservation paid and payment successful, nothing else changed |
| ReservationController.MarkReservationAsPaid | backend/controllers/reservation.go:32-84 | a path id the database cannot read as a uuid answers 404 with nothing written; otherwise the committed tables and status are those of MarkPaidOutcome for the key it reads |
| ReservationController.CreateOutcome | backend/controllers/reservation.go:211-322 | 400 / 404 / 409 exactly in the body, uuid, existence, availability and capacity cases; 201 adds one pending reservation at the court's price and one pending payment ordered under its id; every failure leaves the tables unchanged |
| ReservationController.CreateReservation | backend/controllers/reservation.go:211-322 | the committed tables and status are those of CreateOutcome, so it books exactly when CreateSucceedsIff says; on 201 it returns the new id and the Snap token |
| ReservationController.CreateSucceedsIff | backend/controllers/reservation.go:211-322 | 201 exactly when every check and write passes: open schedule with a spare seat at an existing court, the caller a user, free keys, no reservation row on the schedule yet, a price that fits, a Snap token, an unused order id; otherwise 4xx or 500 |
| ReservationController.CreateFillsOneSeat | backend/controllers/reservation.go:245-265 | a successful booking takes the active count of its schedule from 0 to 1, within the court's capacity |
| ReservationController.CreatePreservesValid | backend/controllers/reservation.go:211-322 | booking keeps every table constraint |
| ReservationController.CancelAndRelease | backend/controllers/reservation.go:466-472 | cancelling changes only the reservation's status and its schedule's `is_available`, which becomes true |
| ReservationController.CancelOutcome | backend/controllers/reservation.go:443-479 | 404 for an unknown reservation, 403 for another owner, 400 unless pending; otherwise cancelled and released |
| ReservationController.CancelReservation | backend/controllers/reservation.go:443-479 | a path id the database cannot read as a uuid answers 404 with nothing written; otherwise the committed tables and status are those of CancelOutcome for the key it reads |
| ReservationController.AdminCancelOutcome | backend/controllers/reservation.go:635-667 | 404 for an unknown reservation; otherwise cancelled and released, whatever its status or owner |
| ReservationController.AdminCancelReservation | backend/controllers/reservation.go:635-667 | a path id the database cannot read as a uuid answers 404 with nothing written; otherwise the committed tables and status are those of AdminCancelOutcome for the key it reads |
| ReservationController.AdminCancelExtendsCancel | backend/controllers/reservation.go:635-667 | wherever the user's cancel succeeds, the admin's cancel has the same effect |
| ReservationController.CancelPreservesValid | backend/controllers/reservation.go:466-472 | cancel and release keep every table constraint |
| ReservationController.ReleasedScheduleCannotBeRebooked | backend/controllers/reservation.go:466-472 | after a cancel the schedule reads as available, yet no booking of it can succeed |
| ReservationController.WebhookStatus | backend/controllers/reservation.go:533-546 | capture+accept or settlement is success; capture+challenge or pending is pending; deny/expire/cancel is failed; nothing else updates |
| ReservationController.SyncStatus | backend/controllers/reservation.go:356-365 | capture (unless challenge) or settlement is success; capture+challenge is pending; deny/expire/cancel is failed |
| ReservationController.MappingsDiffer | backend/controllers/reservation.go:356-365 | the two mappings disagree exactly on a capture with a fraud status other than challenge/accept, and on "pending" |
| ReservationController.Text | backend/controllers/reservation.go:491-494 | a payload field reads as a string iff the key holds a string |
| ReservationController.Notified | backend/controllers/reservation.go:561-601 | the payment takes the status and type; success marks the reservation paid; failure cancels it and releases its schedule |
| ReservationController.WebhookOutcome | backend/controllers/reservation.go:482-605 | 400 for a missing order id or empty signature/status code/amount, 401 for a wrong signature, 404 for an unknown order; otherwise 200 with the mapped update, or no change |
| ReservationController.HandleMidtransNotification | backend/controllers/reservation.go:482-605 | the committed tables and status are those of WebhookOutcome |
| ReservationController.WebhookPreservesValid | backend/controllers/reservation.go:561-601 | a notification keeps every table constraint |
| ReservationController.SuccessRevivesCancelled | backend/controllers/reservation.go:576-583 | a success notification makes a cancelled reservation paid while its schedule stays released |
| ReservationController.SyncPayment | backend/controllers/reservation.go:377-413 | the payment half of a sync touches only the payments table |
| ReservationController.SyncPaymentEffect | backend/controllers/reservation.go:377-413 | an existing payment takes the status and a non-empty payment type; otherwise one is created under the reservation's id, failing exactly on a taken key, a missing reservation, an overflowing amount or a used order id |
| ReservationController.SyncPaymentRecords | backend/controllers/reservation.go:377-413 | after the payment half the reservation has a payment with the new status |
| ReservationController.Settle | backend/controllers/reservation.go:415-425 | success marks the reservation paid; failure marks it cancelled and releases schedule `sid`; any other status changes nothing; users, courts and payments never change |
| ReservationController.SyncOne | backend/controllers/reservation.go:338-436 | one loop turn acts only on a pending reservation whose lookup yields a status: it syncs the payment and then settles, or changes nothing when the payment insert fails; with a payment in place it ends paid on success, or cancelled with its schedule available on failure |
| ReservationController.SyncedPaymentRecorded | backend/controllers/reservation.go:374-431 | a committed sync leaves the reservation a payment carrying the provider's status |
| ReservationController.SyncOneReleasesOnlyItsSchedule | backend/controllers/reservation.go:415-425 | a sync changes no user or court and releases at most the reservation's own schedule, and only on failure |
| ReservationController.SyncOneKeepsValid | backend/controllers/reservation.go:338-436 | one sync keeps every table constraint |
| ReservationController.SyncAll | backend/controllers/reservation.go:338-437 | the loop changes only pending listed reservations, each only to paid or cancelled, and keeps the keys |
| ReservationController.SyncOneMonotone | backend/controllers/reservation.go:377-425 | a sync keeps every existing payment link and every schedule, and never makes a schedule unavailable |
| ReservationController.SyncAllSettles | backend/controllers/reservation.go:338-437 | after the loop each listed reservation that was pending and had its payment is paid on success, cancelled with its schedule available on failure, and untouched otherwise |
| ReservationController.SyncAllKeepsValid | backend/controllers/reservation.go:338-437 | the whole loop keeps every table constraint |
| ReservationController.SyncAllStep | backend/controllers/reservation.go:338-437 | one more turn of the loop is one more SyncOne |
| ReservationController.SyncReservation | backend/controllers/reservation.go:339-435 | the loop body commits SyncOne and returns the status the response lists |
| ReservationController.SyncListed | backend/controllers/reservation.go:338-437 | the loop commits SyncAll and lists each id's status after the sync |
| ReservationController.GetMyReservations | backend/controllers/reservation.go:325-440 | lists exactly the caller's reservations, newest first; each pending one with a payment ends paid on success, or cancelled with its schedule released on failure; the statuses listed are those after the sync |
| ReservationQueries.OpenDates | backend/controllers/reservation.go:93-97 | the open dates are those from today on that hold an available schedule |
| ReservationQueries.GetAvailableDates | backend/controllers/reservation.go:89-107 | lists each open date once, ascending, as its "2006-01-02" text |
| ReservationQueries.OpenDatesStrictlyAscending | backend/controllers/reservation.go:95-96 | the listed dates strictly increase |
| ReservationQueries.StartTimes | backend/controllers/reservation.go:118-122 | the start times are those of that day's available schedules |
| ReservationQueries.GetTimeSlots | backend/controllers/reservation.go:110-130 | 400 without a date, 500 for a date text the database refuses, else each start time of the day the database reads, once, ascending |
| ReservationQueries.GetAvailableCourts | backend/controllers/reservation.go:133-163 | 400 unless date and time are given, 500 for a date text the database refuses, else one entry per available schedule at that date and time, with its court |
| ReservationQueries.GetSchedules | backend/controllers/reservation.go:166-201 | 400 without a date or for a malformed date, else that day's available schedules, each once |
| ReservationQueries.WithStatus | backend/controllers/reservation.go:616-619 | all reservations for an empty status, else those whose status text equals it |
| ReservationQueries.GetAllReservations | backend/controllers/reservation.go:610-632 | lists the selected reservations, each once, newest first |
| ReservationQueries.UnknownStatusListsNothing | backend/controllers/reservation.go:616-619 | a status outside the reservation domain, "failed" among them, lists nothing |
| ScheduleController.DateFilterOf | backend/controllers/schedule.go:30-34 | both dates give an inclusive range, the start alone an exact day, no start no date filter; a date text the database refuses fails |
| ScheduleController.IsoRangeFilter | backend/controllers/schedule.go:30-31 | two "YYYY-MM-DD" texts select the inclusive range between their days |
| ScheduleController.CourtFilterOf | backend/controllers/schedule.go:27-29 | no court filter for an empty id, else the court the database reads the text as; a text the `uuid` column refuses fails |
| ScheduleController.CanonicalCourtFilter | backend/controllers/schedule.go:27-29 | a canonical uuid filters on that very court |
| ScheduleController.Selected | backend/controllers/schedule.go:20-42 | a schedule is listed iff it is of the given court (when one is given) and matches the date filter |
| ScheduleController.GetAdminSchedules | backend/controllers/schedule.go:20-42 | 500 exactly when the database refuses the court id or a date text, else the selected schedules, each once, ordered by date then start time |
| ScheduleController.ListedInOrder | backend/controllers/schedule.go:37 | in the list dates never decrease, and start times never decrease within a date |
| ScheduleController.OneDayRangeIsExactDay | backend/controllers/schedule.go:29-33 | a one-day range selects what that exact day selects |
| ScheduleController.ReversedRangeSelectsNothing | backend/controllers/schedule.go:29-30 | a range ending before it starts selects nothing |
| ScheduleController.DaysThrough | backend/controllers/schedule.go:66 | the day count is positive iff the start is not after the end |
| ScheduleController.BulkRows | backend/controllers/schedule.go:61-80 | one slot per day from the start date through the end date, in order |
| ScheduleController.GenerateSlots | backend/controllers/schedule.go:65-80 | the day loop appends exactly BulkRows |
| ScheduleController.BulkOutcome | backend/controllers/schedule.go:55-87 | 400 for an unparsable body, 500 when the database cannot read the court id as a uuid or the insert fails, else the generated rows added with the court id as read |
| ScheduleController.CreateScheduleBulk | backend/controllers/schedule.go:55-87 | the committed tables and status are those of BulkOutcome; the count is the number of rows |
| ScheduleController.BulkCoversRange | backend/controllers/schedule.go:66-80 | a date gets a slot iff it lies in the range, both ends included, and no date gets two |
| ScheduleController.ReversedRangeFails | backend/controllers/schedule.go:82-84 | an end before the start generates no rows, so the request answers 500 and writes nothing |
| ScheduleController.BulkRowsCarryInput | backend/controllers/schedule.go:73-79 | every slot is available and carries the request's court and times; the duration changes nothing |
| ScheduleController.OversizedRangeFails | backend/controllers/schedule.go:65-86 | a range of more than 9362 days (65535 / 7) makes the request fail with 500 and write nothing |
| ScheduleController.UnparsedStartFails | backend/controllers/schedule.go:61-86 | a start date that does not parse falls back to 0001-01-01, so any end date from year 27 on fails with 500 |
| ScheduleController.CanonicalCourtBulk | backend/controllers/schedule.go:73-86 | a canonical court id is stored as written: the outcome is that of inserting exactly the generated rows |
| ScheduleController.BulkPreservesValid | backend/controllers/schedule.go:55-87 | a bulk request keeps every table constraint |
| ScheduleController.UpdateOutcome | backend/controllers/schedule.go:90-110 | 404 for an unknown schedule, 400 for an unparsable body, otherwise only `is_available` changes |
| ScheduleController.UpdateSchedule | backend/controllers/schedule.go:90-110 | a path id the database cannot read as a uuid answers 404 with nothing written; otherwise the committed tables and status are those of UpdateOutcome for the key it reads; it returns the saved row |
| ScheduleController.UpdateIdempotent | backend/controllers/schedule.go:102-105 | sending the same value twice changes nothing the second time |
| ScheduleController.UpdatePreservesValid | backend/controllers/schedule.go:90-110 | an update keeps every table constraint |
| AdminController.PendingActions | backend/controllers/admin_controller.go:43-45 | the pending actions are exactly the pending reservations |
| AdminController.ActiveSessions | backend/controllers/admin_controller.go:37-40 | the active sessions are the paid or confirmed reservations on a schedule dated today |
| AdminController.ActiveSessionsBounded | backend/controllers/admin_controller.go:37-40 | there are no more active sessions than schedules today |
| AdminController.AgendaLabel | backend/controllers/admin_controller.go:59-86 | green iff available without bookings, grey iff closed without bookings, yellow iff one pending booking; a customer name only for one booking; "n Bookings" for more |
| AdminController.LabelOf | backend/controllers/admin_controller.go:55-86 | the loop's overriding assignments yield AgendaLabel |
| AdminController.ClosedNeverRed | backend/controllers/admin_controller.go:63-66 | the red first given to a closed schedule is always overwritten |
| AdminController.NoMultiBookingLabel | backend/controllers/admin_controller.go:81-85 | with one reservation row per schedule the "n Bookings" label never appears |
| AdminController.OnlyBooking | backend/controllers/admin_controller.go:67-80 | a schedule's only booking exists iff it has exactly one active booking |
| AdminController.AgendaRow | backend/controllers/admin_controller.go:55-98 | one agenda row: court, "start - end", flag, bookings and label of its schedule |
| AdminController.AgendaRows | backend/controllers/admin_controller.go:55-98 | one row per listed schedule, in order |
| AdminController.GetDashboardStats | backend/controllers/admin_controller.go:21-106 | the counts of active sessions and pending actions, and the agenda of today's schedules by start time |
| AdminController.ManualOutcome | backend/controllers/admin_controller.go:124-193 | 400 / 404 (email before schedule) / 409 (capacity reached) exactly; success writes a paid reservation and a successful cash payment "MANUAL-" + id, or nothing when the payment insert fails |
| AdminController.ManualSucceedsIff | backend/controllers/admin_controller.go:124-193 | 200 exactly when the email names a user, the schedule exists with a spare seat at an existing court and the reservation row fits (else 500 after the checks); a 200 commits the booking exactly when the payment row fits too |
| AdminController.CreateManualReservation | backend/controllers/admin_controller.go:124-193 | 400 for no body; a schedule id the database cannot read as a uuid answers 404 with nothing written; otherwise the committed tables and status are those of ManualOutcome for the key it reads, so it books exactly when ManualSucceedsIff says |
| AdminController.ManualIgnoresAvailability | backend/controllers/admin_controller.go:150-158 | the status does not depend on any schedule's `is_available` |
| AdminController.ManualOkWithoutBooking | backend/controllers/admin_controller.go:176-192 | a taken "MANUAL-" order id makes the handler answer 200 with nothing committed |
| AdminController.ManualFillsOneSeat | backend/controllers/admin_controller.go:150-158 | a committed manual booking takes the active count from 0 to 1 |
| AdminController.ManualPreservesValid | backend/controllers/admin_controller.go:124-193 | a manual booking keeps every table constraint |
| AuthMiddleware.TokenOf | backend/middleware/auth.go:16-24 | the cookie when set, else the header with its first "Bearer " removed |
| AuthMiddleware.Guard | backend/middleware/auth.go:11-51 | 401 without a token, for an invalid token or non-object claims; otherwise the request goes on with the `user_id` and `role` claims |
| AuthMiddleware.Protected | backend/middleware/auth.go:11-51 | the step-by-step guard decides as Guard |
| AuthMiddleware.AdminOnly | backend/middleware/auth.go:54-64 | 403 unless the role is the string "admin" |
| AuthMiddleware.CookieWins | backend/middleware/auth.go:16-19 | with a cookie the header is never read |
| AuthMiddleware.BearerHeaderGivesToken | backend/middleware/auth.go:19-24 | "Bearer " plus a token gives that token |
| AuthMiddleware.OnlyFirstBearerRemoved | backend/middleware/auth.go:22 | a doubled "Bearer " leaves one in the token |
| AuthMiddleware.HeaderWithoutBearerIsToken | backend/middleware/auth.go:22 | a header without "Bearer " is the token as it is |
| AuthMiddleware.AdminRouteNeedsAdminClaim | backend/middleware/auth.go:56-61 | behind both guards a request passes iff it has a valid token whose role claim is "admin" |
| FrontendProxy.Proxy | frontend/src/proxy.ts:5-22 | redirect to /sign-in with `from` the path iff there is no token and the path starts with a protected prefix; otherwise pass through |
| FrontendProxy.TokenNeverInspected | frontend/src/proxy.ts:6-18 | any two non-empty tokens pass every path alike |
| FrontendProxy.ReservedIsProtected | frontend/src/proxy.ts:14 | "/reserved" counts as protected by the prefix check |
| FrontendProxy.Guarded | frontend/src/proxy.ts:25-35 | behind the matcher a request is redirected iff it has no token and the matcher selects its path |
| FrontendProxy.SectionPagesRedirect | frontend/src/proxy.ts:25-35 | every page under a protected section is redirected without a token |
| FrontendProxy.MatcherExcludesReserved | frontend/src/proxy.ts:25-35 | the matcher does not select "/reserved", so it passes |
| AuthContext.CheckAuthRedirect | frontend/src/context/AuthContext.tsx:40-49 | a redirect iff admin-ness differs from being under /admin; admins go to /admin/dashboard, others to / |
| AuthContext.LandingFor | frontend/src/context/AuthContext.tsx:62-72 | login lands under /admin iff the user is an admin |
| AuthContext.RedirectSettles | frontend/src/context/AuthContext.tsx:40-49 | a redirect's target causes no further redirect |
| AuthContext.LoginLandsWhereCheckStays | frontend/src/context/AuthContext.tsx:62-72 | the login page is one the check leaves alone |
| AuthContext.AuthProvider.constructor | frontend/src/context/AuthContext.tsx:27-28 | nobody signed in, loading |
| AuthContext.AuthProvider.IsAuthenticated | frontend/src/context/AuthContext.tsx:95 | authenticated iff a user is set |
| AuthContext.AuthProvider.IsAdmin | frontend/src/context/AuthContext.tsx:89 | admin iff a user with role "admin" is set |
| AuthContext.AuthProvider.CheckAuth | frontend/src/context/AuthContext.tsx:32-60 | the user becomes the fetched one or none; loading ends; a fetched user is redirected as CheckAuthRedirect says |
| AuthContext.AuthProvider.Login | frontend/src/context/AuthContext.tsx:62-72 | sets the user, pushes its landing page, refreshes |
| AuthContext.AuthProvider.Register | frontend/src/context/AuthContext.tsx:74-76 | exactly as Login |
| AuthContext.AuthProvider.Logout | frontend/src/context/AuthContext.tsx:78-87 | clears the user and goes to /sign-in only when the backend call succeeds |
| UserDashboard.ScheduleDateJoinsDayAndTime | frontend/src/components/dashboard/UserDashboard.tsx:54-59 | the text parsed is the date part before 'T', a 'T' and the start time |
| UserDashboard.DashboardStats | frontend/src/components/dashboard/UserDashboard.tsx:62-82 | total sessions count the paid/confirmed bookings; this month's are at most that; one workout date per paid session |
| UserDashboard.NextSessionIsEarliest | frontend/src/components/dashboard/UserDashboard.tsx:72-76 | the next session exists iff a paid booking starts later, and is the earliest such |
| UserDashboard.PendingCount | frontend/src/components/dashboard/UserDashboard.tsx:198 | the tab label's count is the pending tab's length |
| UserDashboard.PendingTabContents | frontend/src/components/dashboard/UserDashboard.tsx:87-88 | the pending tab holds exactly the pending bookings; its k-th entry is the booking at the k-th pending position, so the order received is kept |
| Ordering.FilterKeepsOrder | frontend/src/components/dashboard/UserDashboard.tsx:87-88 | `filter` returns the elements at the kept positions in ascending position order |
| UserDashboard.UpcomingTabContents | frontend/src/components/dashboard/UserDashboard.tsx:89-92 | the upcoming tab holds exactly the paid bookings starting later, earliest first |
| UserDashboard.HistoryTabContents | frontend/src/components/dashboard/UserDashboard.tsx:93-97 | the history tab holds exactly the past, cancelled and failed bookings, latest first |
| UserDashboard.PendingPastInTwoTabs | frontend/src/components/dashboard/UserDashboard.tsx:85-99 | a pending booking that has started is in both the pending and the history tab |
| UserDashboard.PaidStartingNowInNoTab | frontend/src/components/dashboard/UserDashboard.tsx:85-99 | a paid booking starting exactly now is in no tab |
| SuccessPage.StatusFor | frontend/src/app/reservations/success/page.tsx:31-39 | pending iff "pending", failed iff cancelled/failed, success for every other text |
| SuccessPage.FindStatus | frontend/src/app/reservations/success/page.tsx:28 | the status of the first booking with the id, none iff no booking has it |
| SuccessPage.CheckOutcome | frontend/src/app/reservations/success/page.tsx:15-50 | no id gives success; a failed request gives pending with the "could not verify" message; a listed answer gives the syncing message and the page state of the first booking with the id, pending when none has it |
| SuccessPage.ListedReservationPage | frontend/src/app/reservations/success/page.tsx:28-39 | for a listed reservation the page shows failed iff it is cancelled, pending iff it is pending, success for paid, confirmed and refunded |
| SuccessPage.UnlistedIdShowsPending | frontend/src/app/reservations/success/page.tsx:40-43 | an id not in the list shows pending |
| SuccessPage.ReservationStatusPage | frontend/src/app/reservations/success/page.tsx:31-39 | of the stored reservation statuses, cancelled shows failed, pending shows pending, the rest (refunded too) show success |
| SuccessPage.ResultPage.constructor | frontend/src/app/reservations/success/page.tsx:10-12 | the page starts loading with the verifying message and its timer set |
| SuccessPage.ResultPage.TimerFires | frontend/src/app/reservations/success/page.tsx:53-57 | the timer runs the check once and leaves its outcome |
| ScheduleGrid.TimeSlotsAreHours | frontend/src/app/admin/schedules/page.tsx:19-23 | fifteen rows, the full hours 07:00 to 21:00 |
| ScheduleGrid.MondayOf | frontend/src/app/admin/schedules/page.tsx:28-30 | the Monday on or before the day; a Sunday goes back six days |
| ScheduleGrid.WeekOf | frontend/src/app/admin/schedules/page.tsx:32-36 | seven consecutive days from that Monday, holding the day |
| ScheduleGrid.WeekOfItsDays | frontend/src/app/admin/schedules/page.tsx:25-38 | every day of a shown week shows the same week |
| ScheduleGrid.ShiftedWeek | frontend/src/app/admin/schedules/page.tsx:107-117 | moving by seven days moves every day of the week by seven |
| ScheduleGrid.GetWeekDates | frontend/src/app/admin/schedules/page.tsx:25-38 | the argument is moved to its Monday and the week is returned |
| ScheduleGrid.SlotAt | frontend/src/app/admin/schedules/page.tsx:143-152 | the first schedule of that day text and "HH:MM" start, none iff there is none |
| ScheduleGrid.HalfHourInNoRow | frontend/src/app/admin/schedules/page.tsx:149-150 | a schedule starting on the half hour shows in no row |
| ScheduleGrid.FetchRangeIsWeek | frontend/src/app/admin/schedules/page.tsx:83-87 | the requested range selects on the backend exactly the days of the shown week |
| ScheduleGrid.ToggleBody | frontend/src/app/admin/schedules/page.tsx:121-123 | the toggle sends the negated flag |
| ScheduleGrid.ToggleFlipsStoredFlag | frontend/src/app/admin/schedules/page.tsx:119-128 | a toggle flips the stored flag, and toggling the refreshed row restores the tables |
| ScheduleGrid.ScheduleManager.constructor | frontend/src/app/admin/schedules/page.tsx:41-64 | the page starts on today's week with no court, schedules or queries |
| ScheduleGrid.ScheduleManager.PrevWeek | frontend/src/app/admin/schedules/page.tsx:107-111 | the current date moves back seven days and the week follows it |
| ScheduleGrid.ScheduleManager.NextWeek | frontend/src/app/admin/schedules/page.tsx:113-117 | the current date moves ahead seven days and the week follows it |
| ScheduleGrid.ScheduleManager.FetchSchedules | frontend/src/app/admin/schedules/page.tsx:79-94 | nothing without a court or week; otherwise the week's range is queried and a successful answer replaces the schedules |
| ScheduleGrid.ScheduleManager.FetchCourts | frontend/src/app/admin/schedules/page.tsx:66-77 | the listed courts become the options, and the first is selected when none was |
| ScheduleGrid.ScheduleManager.ChooseCourt | frontend/src/app/admin/schedules/page.tsx:163-166 | the chosen court becomes the selected one |
| SummaryStep.ParseInt | frontend/src/components/wizard/SummaryStep.tsx:42 | NaN iff the text does not start with a digit; the value of an all-digit text |
| SummaryStep.EndOfHour | frontend/src/components/wizard/SummaryStep.tsx:42 | the end label of "HH:MM" is hour HH + 1 and ":00", unpadded |
| SummaryStep.MorningEndUnpadded | frontend/src/components/wizard/SummaryStep.tsx:42 | "08:00" ends at "9:00" |
| SummaryStep.LastHourEndsAt24 | frontend/src/components/wizard/SummaryStep.tsx:42 | "23:00" ends at "24:00" |
| SummaryStep.Render | frontend/src/components/wizard/SummaryStep.tsx:55-78 | both buttons disabled and the spinner shown exactly while processing; the banner shows a non-empty error; the time reads start, " - ", then the end hour label |
| DateStep.JsNumber | frontend/src/components/wizard/DateStep.tsx:26 | a digit text is its value, anything else NaN |
| DateStep.NewDate | frontend/src/components/wizard/DateStep.tsx:27 | an exact date has the month index plus one and the day; years below 100 get 1900 added |
| DateStep.ParseAll | frontend/src/components/wizard/DateStep.tsx:25-28 | a missing list gives no dates; otherwise each text is read by itself |
| DateStep.ParseDayOfFormat | frontend/src/components/wizard/DateStep.tsx:25-28 | the backend's texts read back as the same dates from year 100 on, and 1900 years later below |
| DateStep.SelectableAreOpenDates | frontend/src/components/wizard/DateStep.tsx:77-85 | the picker offers exactly the backend's open dates up to thirty days ahead |
| DateStep.OnChange | frontend/src/components/wizard/DateStep.tsx:79 | only a picked date replaces the selection |
| DateStep.ChosenDateStays | frontend/src/components/wizard/DateStep.tsx:91 | once a date is chosen Next stays enabled |
| DateStep.DatePickerStep.constructor | frontend/src/components/wizard/DateStep.tsx:16-17 | no dates, loading |
| DateStep.DatePickerStep.FetchDates | frontend/src/components/wizard/DateStep.tsx:19-37 | the read dates replace the list; a failure keeps it; loading ends |
| ReserveWizard.ViewFor | frontend/src/app/reserve/page.tsx:132-171 | step 1 shows the date step; steps 2, 3 and 4 each need the earlier selections |
| ReserveWizard.ButtonsKeepConsistent | frontend/src/app/reserve/page.tsx:37-38 | from a consistent step some view renders, and Next and Back lead to consistent steps |
| ReserveWizard.FailureMessage | frontend/src/app/reserve/page.tsx:93-101 | 409 gives the slot-taken text, else the backend's error or "System error."; never empty |
| ReserveWizard.BookEffect | frontend/src/app/reserve/page.tsx:49-101 | the create request goes first; processing ends iff an error is shown; no navigation with an error; a paid window adds mark-paid and opens the success page |
| ReserveWizard.MarkPaidResultIgnored | frontend/src/app/reserve/page.tsx:67-76 | the success page opens whether or not mark-paid succeeded |
| ReserveWizard.SummaryShowsOutcome | frontend/src/components/wizard/SummaryStep.tsx:55-78 | the summary shows every error handleBook leaves, and disables its buttons exactly while moving on |
| ReserveWizard.ReservationPage.constructor | frontend/src/app/reserve/page.tsx:27-34 | step 1, nothing selected, not processing, no error |
| ReserveWizard.ReservationPage.NextStep | frontend/src/app/reserve/page.tsx:37 | the step goes up by one, nothing else changes |
| ReserveWizard.ReservationPage.PrevStep | frontend/src/app/reserve/page.tsx:38 | the step goes down by one, nothing else changes |
| ReserveWizard.ReservationPage.SelectDate | frontend/src/app/reserve/page.tsx:135 | the date becomes the selection, nothing else changes |
| ReserveWizard.ReservationPage.SelectTime | frontend/src/app/reserve/page.tsx:144 | the time becomes the selection, nothing else changes |
| ReserveWizard.ReservationPage.SelectCourt | frontend/src/app/reserve/page.tsx:155 | the studio becomes the selection, nothing else changes |
| ReserveWizard.ReservationPage.HandleBook | frontend/src/app/reserve/page.tsx:41-102 | signed out: only a push to /sign-in; a missing selection: no change; otherwise the flags, pages and requests of BookEffect |

## Behaviour worth knowing

The lemmas below state behaviour of the code as written that a reader might not expect:

- `ReservationController.ReleasedScheduleCannotBeRebooked`: a cancel marks the schedule available again. The cancelled row still holds the unique `schedule_id`, so every later booking of that schedule fails.
- `ReservationController.SuccessRevivesCancelled`: a success notification turns a cancelled reservation back into paid. Its released schedule stays available.
- `ReservationController.MappingsDiffer`: the webhook and the sync on `GET /reservations/my` map provider statuses differently. A capture with an empty fraud status is a success in the sync and is ignored by the webhook.
- `AdminController.ManualOkWithoutBooking`: the manual booking answers 200 even when its payment insert failed and the transaction committed nothing.
- `AdminController.ClosedNeverRed` and `AdminController.NoMultiBookingLabel`: two branches of the agenda label never show. The red of a closed schedule is always overwritten, and "n Bookings" cannot occur under the unique `schedule_id`.
- `ScheduleController.ReversedRangeFails`: a bulk request whose end precedes its start answers 500, since an empty batch insert is refused.
- `ScheduleController.UnparsedStartFails`: a bulk request whose start date is missing or malformed answers 500. The start falls back to 0001-01-01, and the range then needs more rows than one insert statement can bind.
- `AuthMiddleware.OnlyFirstBearerRemoved`: the header fallback removes only the first "Bearer ".
- `FrontendProxy.ReservedIsProtected` and `FrontendProxy.MatcherExcludesReserved`: the guard's prefix test would protect "/reserved", but the route matcher never sends that path to the guard.
- `UserDashboard.PendingPastInTwoTabs` and `UserDashboard.PaidStartingNowInNoTab`: the three tabs overlap and also leave gaps.
- `SuccessPage.ReservationStatusPage`: a refunded reservation shows as a successful payment.
- `SummaryStep.MorningEndUnpadded` and `SummaryStep.LastHourEndsAt24`: the end label is "9:00" after "08:00" and "24:00" after "23:00".
- `DateStep.ParseDayOfFormat`: dates of years 1 to 99 come back 1900 years later.
- `ScheduleGrid.HalfHourInNoRow`: a schedule that starts on the half hour shows in no grid cell.
- `ReserveWizard.MarkPaidResultIgnored`: the booking page moves on whether or not mark-paid worked. No route in backend/routes/reservation.go:29-33 registers the mark-paid handler, so the page's mark-paid request reaches none.

## Left out

- Database access is left out: queries, connection failures and the `FOR UPDATE` row locks. Tables are maps and each handler is one atomic step. The database errors modelled are constraint violations, query texts the database refuses and the 65535-parameter limit of one statement. How Postgres reads a date or uuid text is a parameter (`dbDate`, `dbUuid`). `Store.ReadsIsoDates` and `Store.ReadsCanonicalUuids` constrain it only on the canonical forms. `dbDate` reads the date filters of the slot, court and admin schedule queries. `dbUuid` reads the admin list's court filter, the bulk court id, and the ids looked up by mark-paid, cancel, admin cancel, schedule update and manual booking. The ids of `CreateReservation` are checked as lower-case canonical uuids before any query, and the other ids come from stored rows. Concurrency and transient failures are not represented.
- The payment provider (`GenerateSnapToken`, `VerifyTransaction`) is represented only by its answers, which are parameters (`SnapResult`, `Verification`). The provider itself is a foreign service.
- The notification signature is checked through a parameter `sign` that stands for hex SHA-512; the hash and its encoding are not modelled. Token parsing in `Protected` is likewise the parameter `parse`; backend/utils/jwt.go is not part of this model.
- Money is an integer count of hundredths. The `decimal(10,2)` columns become a width check, and the provider's `int64` truncation of the amount is not modelled.
- Clocks are parameters. The backend's `time.Now()` becomes `today`; the client's `new Date()` and date-fns become `now`, `parse` and `monthOf` over integer instants. Time zones are not modelled, and the browser's local day is taken to be the day `toISOString` prints.
- The sync's `TransactionTime` parse and the JSON copy of the provider's response (`MidtransResponse`) are not stored; they are logging data that no rule reads.
- `GetMyReservations` and `GetAllReservations` preload courts and schedules. The model lists ids and statuses only and leaves out the preloaded rows. The ignored date filter of `GetAllReservations` is left out with them.
- `GetDashboardStats` leaves out today's revenue. It is a floating-point sum that no rule depends on.
- UserDashboard.DashboardStats: the contract bounds `thisMonthSessions` but does not state its value. The month comparison is date-fns `isSameMonth`, passed in as `monthOf`.
- ReservationController.MarkPaidOutcome: the caller's `user_id` is taken as an `Id`. The `.(string)` assertion that panics on a missing or non-string claim (reservation.go:34) is not modelled. Tokens are signed at login with the user's string id (backend/controllers/auth.go:61, 110).
- ReservationController.CreateOutcome: the same `user_id` assertion (reservation.go:212) is taken to succeed, for the same reason.
- ReservationController.CancelOutcome: the same `user_id` assertion (reservation.go:445) is taken to succeed, for the same reason.
- ReservationController.GetMyReservations: the same `user_id` assertion (reservation.go:326) is taken to succeed, for the same reason.
- Calendar.Parse refuses year 0, which Go's "2006-01-02" layout accepts. A bulk request starting at "0000-01-01" is therefore read as the zero date rather than year 0.
- Ordering.SortByKey does not state stability. JavaScript's `sort` is stable, and tie order among equal start times in the dashboard tabs is not promised by the model.
- UserDashboard.DashboardStats and the tab lemmas take `parse` as a total function to instants. date-fns' Invalid Date (NaN, which compares false with everything) is not represented.
- The dashboard's booking fetch is left out, along with the `loading` flags of the dashboard, the admin grid and the date step. These flags only gate rendering, and the rules take the fetched list as input.
- Async intermediate states are not modelled: `processing` is set before the create request is answered, and a `snap.pay` that throws reaches the same catch as a failed create. `HandleBook` goes straight to the state after the payment window's callback.
- The success page's timer is not cancelled on unmount, and the `!schedules` check of `getSlot` is omitted. Neither can arise once the component's state is a class field.
- ReservationQueries.GetTimeSlots orders start times by code point (`Strings.StrLe`), as the C collation does. Postgres orders `ORDER BY start_time` by the database's collation, which may differ for texts other than "HH:MM". The same holds for `ScheduleController.GetAdminSchedules` and the admin agenda.
- SummaryStep.ParseInt reads only unsigned digit texts. The leading whitespace and sign that `parseInt` accepts do not occur in start times.
- DateStep.NewDate does not follow a date whose fields roll over into another month (`Rolled`); the backend never sends such texts. `Number`'s whitespace and decimal forms are left out for the same reason.
- The week grid's bulk-create form, modal and alerts are left out. The backend generation they call is modelled in `ScheduleController`.
- The progress bar, styling and the dashboard's mock consistency calendar are presentation only and are left out.
