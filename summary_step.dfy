/**
 * The last wizard step (frontend/src/components/wizard/SummaryStep.tsx): the
 * time range shown for the chosen slot, and the gating of its two buttons
 * and its error banner on the page's `processing` and `error` state.
 */
module SummaryStep {
  import opened Wrappers
  import opened Strings

  /** The longest prefix of s made of decimal digits. */
  function LeadingDigits(s: string): (p: string)
    ensures StartsWith(s, p) && AllDigits(p)
    ensures |p| < |s| ==> !IsDigit(s[|p|])
  {
    if s == [] || !IsDigit(s[0]) then ""
    else [s[0]] + LeadingDigits(s[1..])
  }

  /** JavaScript `parseInt(s)` of an unsigned decimal text: its leading digits, NaN (None) when there are none. */
  function ParseInt(s: string): (r: Option<nat>)
    ensures r.None? <==> s == [] || !IsDigit(s[0])
    ensures AllDigits(s) && s != [] ==> r == Some(DigitsValue(s))
  {
    var p := LeadingDigits(s);
    if p == [] then None
    else
      assert AllDigits(s) ==> p == s;
      Some(DigitsValue(p))
  }

  /** The start of the shown range: `selectedTime.substring(0, 5)`. */
  function StartLabel(selectedTime: string): string {
    Take(selectedTime, 5)
  }

  /** The end of the shown range: the hour of the first two characters plus one, then ":00"; "NaN:00" without an hour. */
  function EndLabel(selectedTime: string): (end: string)
    ensures ParseInt(Take(selectedTime, 2)).None? ==> end == "NaN:00"
    ensures ParseInt(Take(selectedTime, 2)).Some? ==>
      end == NatToString(ParseInt(Take(selectedTime, 2)).value + 1) + ":00"
  {
    match ParseInt(Take(selectedTime, 2))
    case None => "NaN:00"
    case Some(h) => NatToString(h + 1) + ":00"
  }

  /** For a time "HH:MM" the range ends at hour HH + 1, printed without a leading zero. */
  lemma EndOfHour(selectedTime: string)
    requires |selectedTime| >= 2 && AllDigits(selectedTime[..2])
    ensures EndLabel(selectedTime) == NatToString(DigitsValue(selectedTime[..2]) + 1) + ":00"
  {
    assert Take(selectedTime, 2) == selectedTime[..2];
  }

  /** A morning slot's end is not zero padded: "08:00" ends at "9:00". */
  lemma MorningEndUnpadded()
    ensures EndLabel("08:00") == "9:00"
  {
    var h := Take("08:00", 2);
    assert h == "08";
    assert DigitsValue(h) == 8 by {
      assert h[..1] == "0";
      assert h[..1][..0] == [];
    }
    EndOfHour("08:00");
    assert NatToString(9) == "9";
  }

  /** The shown range always spans one hour, whatever the slot's real end: "23:00" ends at "24:00". */
  lemma LastHourEndsAt24()
    ensures EndLabel("23:00") == "24:00"
  {
    var h := Take("23:00", 2);
    assert h == "23";
    assert DigitsValue(h) == 23 by {
      assert h[..1] == "2";
      assert h[..1][..0] == [];
    }
    EndOfHour("23:00");
    assert NatToString(24) == NatToString(2) + [DigitChar(4)];
  }

  /** What the step shows. */
  datatype Summary = Summary(timeLabel: string, backDisabled: bool, confirmDisabled: bool,
                             errorBanner: Option<string>, confirmSpinner: bool)

  /**
   * The rendered step: both buttons are disabled exactly while processing,
   * the confirm button then shows a spinner instead of "Proceed to Payment",
   * and the banner shows a non-empty error (an empty text is falsy and hides it).
   */
  function Render(selectedTime: string, processing: bool, error: Option<string>): (v: Summary)
    ensures v.backDisabled == processing && v.confirmDisabled == processing
    ensures v.confirmSpinner == processing
    ensures v.errorBanner.Some? <==> error.Some? && error.value != ""
    ensures v.errorBanner.Some? ==> v.errorBanner == error
    ensures StartsWith(v.timeLabel, StartLabel(selectedTime))
    ensures v.timeLabel == StartLabel(selectedTime) + " - " + EndLabel(selectedTime)
  {
    var text := StartLabel(selectedTime) + " - " + EndLabel(selectedTime);
    assert text[..|StartLabel(selectedTime)|] == StartLabel(selectedTime);
    Summary(text, processing, processing,
            if error.Some? && error.value != "" then error else None,
            processing)
  }
}
