/**
 * The booking wizard page (frontend/src/app/reserve/page.tsx): a step counter
 * that walks date, time, studio and confirmation, the member's selections,
 * and `handleBook`, which creates the reservation and opens the payment
 * window. Router calls and backend requests are recorded in order; what the
 * backend and the payment window answer are parameters.
 */
module ReserveWizard {
  import opened Wrappers
  import opened Calendar
  import S = SummaryStep

  /** A studio offer as the studio step hands it over. */
  datatype CourtChoice = CourtChoice(courtId: string, scheduleId: string, courtName: string, price: int, capacity: int)

  /** A selected time counts only when non-empty: JavaScript treats "" as no selection. */
  predicate HasTime(t: Option<string>) {
    t.Some? && t.value != ""
  }

  /** The step component the page renders, if any. */
  datatype View = DateView | TimeView | CourtView | SummaryView | NoView

  /** Which step renders: steps 2 to 4 each need every earlier selection. */
  function ViewFor(step: int, hasDate: bool, hasTime: bool, hasCourt: bool): (v: View)
    ensures v == DateView <==> step == 1
    ensures v == TimeView <==> step == 2 && hasDate
    ensures v == CourtView <==> step == 3 && hasDate && hasTime
    ensures v == SummaryView <==> step == 4 && hasDate && hasTime && hasCourt
  {
    if step == 1 then DateView
    else if step == 2 && hasDate then TimeView
    else if step == 3 && hasDate && hasTime then CourtView
    else if step == 4 && hasDate && hasTime && hasCourt then SummaryView
    else NoView
  }

  /** The step's "Next" button is there and enabled: each step's own selection must be made. */
  predicate NextEnabled(v: View, hasDate: bool, hasTime: bool, hasCourt: bool) {
    match v
    case DateView => hasDate
    case TimeView => hasTime
    case CourtView => hasCourt
    case _ => false
  }

  /** The step's "Back" button is there and enabled: the summary disables it while processing. */
  predicate BackEnabled(v: View, processing: bool) {
    v == TimeView || v == CourtView || (v == SummaryView && !processing)
  }

  /** The step lies in 1..4 and every selection the step needs has been made. */
  predicate Consistent(step: int, hasDate: bool, hasTime: bool, hasCourt: bool) {
    1 <= step <= 4 && (step >= 2 ==> hasDate) && (step >= 3 ==> hasTime) && (step == 4 ==> hasCourt)
  }

  /**
   * Pressing only the buttons the page offers keeps the step consistent:
   * some step always renders, and Next and Back lead to consistent steps.
   */
  lemma ButtonsKeepConsistent(step: int, hasDate: bool, hasTime: bool, hasCourt: bool, processing: bool)
    requires Consistent(step, hasDate, hasTime, hasCourt)
    ensures ViewFor(step, hasDate, hasTime, hasCourt) != NoView
    ensures NextEnabled(ViewFor(step, hasDate, hasTime, hasCourt), hasDate, hasTime, hasCourt) ==>
      Consistent(step + 1, hasDate, hasTime, hasCourt)
    ensures BackEnabled(ViewFor(step, hasDate, hasTime, hasCourt), processing) ==>
      Consistent(step - 1, hasDate, hasTime, hasCourt)
  {
  }

  // ---------------------------------------------------------------- handleBook

  /** A backend request the page sends. */
  datatype Request = CreateRequest(scheduleId: string, notes: string) | MarkPaidRequest(reservationId: string)

  /** What `POST /reservations` gave: a failure (with its HTTP status and `error` text when there was a response) or the ids. */
  datatype CreateAnswer = CreateFailed(status: Option<int>, backendError: Option<string>) | Created(reservationId: string, snapToken: string)

  /** How the payment window ended: absent, or the callback it called (`markPaidOk`: whether mark-paid succeeded). */
  datatype PaymentWindow = SnapMissing | PaidInWindow(markPaidOk: bool) | PendingInWindow | WindowError | WindowClosed

  const BookingNotes := "Booking via Wizard"
  const SlotTakenMessage := "Sorry, this slot was just taken! Please restart."
  const SystemErrorMessage := "System error."
  const PaymentFailedMessage := "Payment failed. Please try again."
  const WindowClosedMessage := "Payment window closed. Please try again."
  const SnapLoadingMessage := "Payment system loading. Please wait a moment and try again."

  /** The error shown for a failed create: 409 means the slot went, else the backend's text or a generic one. */
  function FailureMessage(status: Option<int>, backendError: Option<string>): (m: string)
    ensures m != ""
    ensures status == Some(409) ==> m == SlotTakenMessage
    ensures status != Some(409) ==>
      m == if backendError.Some? && backendError.value != "" then backendError.value else SystemErrorMessage
  {
    if status == Some(409) then SlotTakenMessage
    else if backendError.Some? && backendError.value != "" then backendError.value
    else SystemErrorMessage
  }

  function SuccessUrl(reservationId: string): string {
    "/reservations/success?id=" + reservationId
  }

  /** Where `handleBook` ends up once a booking was requested: the flags, the pages opened, the requests sent. */
  datatype Effect = Effect(processing: bool, error: Option<string>, navigations: seq<string>, requests: seq<Request>)

  function BookEffect(scheduleId: string, create: CreateAnswer, window: PaymentWindow): (e: Effect)
    ensures |e.requests| >= 1 && e.requests[0] == CreateRequest(scheduleId, BookingNotes)
    ensures !e.processing <==> e.error.Some?
    ensures e.error.Some? ==> e.error.value != "" && e.navigations == []
    ensures e.error.None? ==> create.Created? && |e.navigations| == 1
    ensures create.CreateFailed? ==> e.error == Some(FailureMessage(create.status, create.backendError)) && |e.requests| == 1
    ensures e.requests == [CreateRequest(scheduleId, BookingNotes)]
                          + (if create.Created? && window.PaidInWindow? then [MarkPaidRequest(create.reservationId)] else [])
    ensures create.Created? && window.PaidInWindow? ==> e.navigations == [SuccessUrl(create.reservationId)]
  {
    var sent := [CreateRequest(scheduleId, BookingNotes)];
    match create
    case CreateFailed(status, backendError) => Effect(false, Some(FailureMessage(status, backendError)), [], sent)
    case Created(id, _) =>
      match window
      case SnapMissing => Effect(false, Some(SnapLoadingMessage), [], sent)
      case PaidInWindow(_) => Effect(true, None, [SuccessUrl(id)], sent + [MarkPaidRequest(id)])
      case PendingInWindow => Effect(true, None, [SuccessUrl(id) + "&status=pending"], sent)
      case WindowError => Effect(false, Some(PaymentFailedMessage), [], sent)
      case WindowClosed => Effect(false, Some(WindowClosedMessage), [], sent)
  }

  /** After a paid window the page moves on to the success page whether or not mark-paid succeeded. */
  lemma MarkPaidResultIgnored(scheduleId: string, id: string, token: string)
    ensures BookEffect(scheduleId, Created(id, token), PaidInWindow(true))
         == BookEffect(scheduleId, Created(id, token), PaidInWindow(false))
  {
  }

  /**
   * On the summary step every error `handleBook` leaves is shown in the
   * banner, and both buttons stay disabled exactly while the page is moving
   * on to the result page.
   */
  lemma SummaryShowsOutcome(selectedTime: string, scheduleId: string, create: CreateAnswer, window: PaymentWindow)
    ensures var e := BookEffect(scheduleId, create, window);
      var v := S.Render(selectedTime, e.processing, e.error);
      v.errorBanner == e.error && (v.backDisabled <==> e.navigations != [])
  {
  }

  // ---------------------------------------------------------------- the page

  class ReservationPage {
    var step: int
    var selectedDate: Option<Date>
    var selectedTime: Option<string>
    var selectedCourt: Option<CourtChoice>
    var processing: bool
    var error: Option<string>
    var navigations: seq<string>
    var requests: seq<Request>

    /** The page as first shown: step 1, nothing selected, idle. */
    constructor ()
      ensures step == 1 && selectedDate == None && selectedTime == None && selectedCourt == None
      ensures !processing && error == None && navigations == [] && requests == []
    {
      step := 1;
      selectedDate := None;
      selectedTime := None;
      selectedCourt := None;
      processing := false;
      error := None;
      navigations := [];
      requests := [];
    }

    /** The step component currently rendered. */
    function CurrentView(): View
      reads this
    {
      ViewFor(step, selectedDate.Some?, HasTime(selectedTime), selectedCourt.Some?)
    }

    /** `nextStep`. */
    method NextStep()
      modifies this
      ensures step == old(step) + 1
      ensures selectedDate == old(selectedDate) && selectedTime == old(selectedTime) && selectedCourt == old(selectedCourt)
      ensures processing == old(processing) && error == old(error)
      ensures navigations == old(navigations) && requests == old(requests)
    {
      step := step + 1;
    }

    /** `prevStep`. */
    method PrevStep()
      modifies this
      ensures step == old(step) - 1
      ensures selectedDate == old(selectedDate) && selectedTime == old(selectedTime) && selectedCourt == old(selectedCourt)
      ensures processing == old(processing) && error == old(error)
      ensures navigations == old(navigations) && requests == old(requests)
    {
      step := step - 1;
    }

    /** The date step's `onSelect`, reached only with a picked date. */
    method SelectDate(d: Date)
      modifies this
      ensures selectedDate == Some(d)
      ensures step == old(step) && selectedTime == old(selectedTime) && selectedCourt == old(selectedCourt)
      ensures processing == old(processing) && error == old(error)
      ensures navigations == old(navigations) && requests == old(requests)
    {
      selectedDate := Some(d);
    }

    /** The time step's `onSelect`. */
    method SelectTime(t: string)
      modifies this
      ensures selectedTime == Some(t)
      ensures step == old(step) && selectedDate == old(selectedDate) && selectedCourt == old(selectedCourt)
      ensures processing == old(processing) && error == old(error)
      ensures navigations == old(navigations) && requests == old(requests)
    {
      selectedTime := Some(t);
    }

    /** The studio step's `onSelect`. */
    method SelectCourt(c: CourtChoice)
      modifies this
      ensures selectedCourt == Some(c)
      ensures step == old(step) && selectedDate == old(selectedDate) && selectedTime == old(selectedTime)
      ensures processing == old(processing) && error == old(error)
      ensures navigations == old(navigations) && requests == old(requests)
    {
      selectedCourt := Some(c);
    }

    /**
     * `handleBook`: a signed-out member is sent to sign-in and nothing is
     * requested; with a selection missing (or an empty time) nothing happens; otherwise the
     * reservation is requested and the outcome is `BookEffect`'s.
     */
    method HandleBook(isAuthenticated: bool, create: CreateAnswer, window: PaymentWindow)
      modifies this
      ensures step == old(step) && selectedDate == old(selectedDate) && selectedTime == old(selectedTime)
      ensures selectedCourt == old(selectedCourt)
      ensures !isAuthenticated ==>
        navigations == old(navigations) + ["/sign-in"] && requests == old(requests)
        && processing == old(processing) && error == old(error)
      ensures isAuthenticated && (selectedCourt.None? || selectedDate.None? || !HasTime(selectedTime)) ==>
        navigations == old(navigations) && requests == old(requests)
        && processing == old(processing) && error == old(error)
      ensures isAuthenticated && selectedCourt.Some? && selectedDate.Some? && HasTime(selectedTime) ==>
        var e := BookEffect(selectedCourt.value.scheduleId, create, window);
        processing == e.processing && error == e.error
        && navigations == old(navigations) + e.navigations && requests == old(requests) + e.requests
    {
      if !isAuthenticated {
        navigations := navigations + ["/sign-in"];
        return;
      }
      if selectedCourt.None? || selectedDate.None? || selectedTime.None? || selectedTime.value == "" {
        return;
      }
      processing := true;
      error := None;
      var scheduleId := selectedCourt.value.scheduleId;
      requests := requests + [CreateRequest(scheduleId, BookingNotes)];
      match create {
        case CreateFailed(status, backendError) =>
          processing := false;
          if status == Some(409) {
            error := Some(SlotTakenMessage);
          } else if backendError.Some? && backendError.value != "" {
            error := backendError;
          } else {
            error := Some(SystemErrorMessage);
          }
        case Created(reservationId, _) =>
          match window {
            case SnapMissing =>
              error := Some(SnapLoadingMessage);
              processing := false;
            case PaidInWindow(_) =>
              requests := requests + [MarkPaidRequest(reservationId)];
              navigations := navigations + [SuccessUrl(reservationId)];
            case PendingInWindow =>
              navigations := navigations + [SuccessUrl(reservationId) + "&status=pending"];
            case WindowError =>
              error := Some(PaymentFailedMessage);
              processing := false;
            case WindowClosed =>
              error := Some(WindowClosedMessage);
              processing := false;
          }
      }
    }
  }
}
