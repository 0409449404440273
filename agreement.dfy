/**
 * The booking form's score and the batch pipeline's score side by side: a
 * booking entered in the form, read as a row of a file, scores the same in
 * both places up to the Python side's lower-casing and its stay-duration term.
 */
module Agreement {
  import opened Text
  import opened Frames
  import opened RiskRules
  import opened PredictPage
  import opened Scoring

  /** The booking as a row of an uploaded file, under the expected column names. */
  function RowOf(f: BookingForm): Row {
    map[
      "lead_time" := Num(f.leadTime as real),
      "arrival_month" := Text(f.arrivalMonth),
      "stay_duration" := Num(f.stayDuration as real),
      "adults" := Num(f.adults as real),
      "children" := Num(f.children as real),
      "deposit_type" := Text(f.depositType),
      "previous_cancellations" := Num(f.previousCancellations as real),
      "previous_bookings" := Num(f.previousBookings as real),
      "special_requests" := Num(f.specialRequests as real),
      "booking_changes" := Num(f.bookingChanges as real),
      "market_segment" := Text(f.marketSegment),
      "room_type" := Text(f.roomType),
      "meal_plan" := Text(f.mealPlan)]
  }

  /** The booking with its deposit type and market segment lower-cased. */
  function Lowered(f: BookingForm): BookingForm {
    f.(depositType := Lower(f.depositType), marketSegment := Lower(f.marketSegment))
  }

  /**
   * The Python score of the booking is the form's raw score of the
   * lower-cased booking plus the stay term, clamped.
   */
  lemma PythonScoreOfForm(f: BookingForm)
    ensures Scorable(RowOf(f))
    ensures RiskProbability(RowOf(f))
      == Clamp(RawScore(Lowered(f)) as real + StayAdjustment(f.stayDuration as real) as real)
  {
    var row := RowOf(f);
    assert row["lead_time"] == Num(f.leadTime as real);
    assert row["stay_duration"] == Num(f.stayDuration as real);
    assert row["deposit_type"] == Text(f.depositType);
    assert row["previous_cancellations"] == Num(f.previousCancellations as real);
    assert row["special_requests"] == Num(f.specialRequests as real);
    assert row["booking_changes"] == Num(f.bookingChanges as real);
    assert row["market_segment"] == Text(f.marketSegment);
    assert Scorable(row);
    assert RawProbability(row) == RawScore(Lowered(f)) as real + StayAdjustment(f.stayDuration as real) as real;
  }

  /**
   * For a booking written in lower case and staying two to seven nights, the
   * batch pipeline gives exactly the form's probability.
   */
  lemma SameScoreForRegularStays(f: BookingForm)
    requires Lower(f.depositType) == f.depositType && Lower(f.marketSegment) == f.marketSegment
    requires 2 <= f.stayDuration <= 7
    ensures Scorable(RowOf(f))
    ensures RiskProbability(RowOf(f)) == Score(f) as real
    ensures DetermineRiskLevel(RiskProbability(RowOf(f))) == DetermineRiskLevel(Score(f) as real)
  {
    PythonScoreOfForm(f);
    assert Lowered(f) == f;
  }

  /**
   * Otherwise the pipeline's raw score differs from the form's by the stay
   * term before the clamp: five less above seven nights, five more below two.
   */
  lemma StayShiftsScore(f: BookingForm)
    requires Lower(f.depositType) == f.depositType && Lower(f.marketSegment) == f.marketSegment
    ensures Scorable(RowOf(f))
    ensures f.stayDuration > 7 ==> RiskProbability(RowOf(f)) == Clamp((RawScore(f) - 5) as real)
    ensures f.stayDuration < 2 ==> RiskProbability(RowOf(f)) == Clamp((RawScore(f) + 5) as real)
  {
    PythonScoreOfForm(f);
    assert Lowered(f) == f;
  }

  /**
   * The form matches deposit words exactly; the pipeline lower-cases them
   * first. A deposit word written in any other letter case is worth nothing
   * to the form and its full points to the pipeline. The form's own select
   * offers only the lower-case words, so the difference shows only for
   * bookings read from an uploaded file.
   */
  lemma CaseMatters(s: string)
    requires Lower(s) in {"no_deposit", "refundable", "non_refundable"}
    requires s != Lower(s)
    ensures DepositAdjustment(s) == 0
    ensures DepositAdjustment(Lower(s)) != 0
  {
    DepositWordsLower();
  }

  /** The same for the market segment words that carry points. */
  lemma SegmentCaseMatters(s: string)
    requires Lower(s) in {"online_ta", "corporate", "direct"}
    requires s != Lower(s)
    ensures SegmentAdjustment(s) == 0
    ensures SegmentAdjustment(Lower(s)) != 0
  {
    SegmentWordsLower();
  }

  lemma DepositWordsLower()
    ensures Lower("no_deposit") == "no_deposit"
    ensures Lower("refundable") == "refundable"
    ensures Lower("non_refundable") == "non_refundable"
  {
    assert Lower("no_deposit") == "no_deposit";
    assert Lower("refundable") == "refundable";
    assert Lower("non_refundable") == "non_refundable";
  }

  lemma SegmentWordsLower()
    ensures Lower("online_ta") == "online_ta"
    ensures Lower("corporate") == "corporate"
    ensures Lower("direct") == "direct"
  {
    assert Lower("online_ta") == "online_ta";
    assert Lower("corporate") == "corporate";
    assert Lower("direct") == "direct";
  }
}
