/**
 * calculate_risk_probability: the additive score of one preprocessed row,
 * with case-insensitive deposit and segment matching and the stay-duration
 * term the booking form does not have.
 */
module Scoring {
  import opened Text
  import opened Frames
  import opened RiskRules

  /** A row as df.iterrows() yields it: column name to cell. */
  type Row = map<string, Cell>

  /** The columns the score reads as numbers. */
  const ScoredNumbers: seq<string> := [
    "lead_time", "previous_cancellations", "special_requests", "booking_changes", "stay_duration"]

  /** float(row.get(key, ...)) is defined: the key is absent or holds a number. */
  predicate NumberAt(row: Row, key: string) {
    key !in row || row[key].Num?
  }

  /** Every number the score reads is there or defaulted. */
  predicate Scorable(row: Row) {
    forall key :: key in ScoredNumbers ==> NumberAt(row, key)
  }

  /** float(row.get(key, default)). */
  function NumberOr(row: Row, key: string, default: real): real
    requires NumberAt(row, key)
  {
    if key in row then row[key].value else default
  }

  /**
   * str(row.get(key, '')).lower() as far as the rules can tell: a text cell
   * lower-cased. A number or NaN prints as digits or "nan", which no rule
   * word equals, so those and an absent key read as the empty text.
   */
  function RuleText(row: Row, key: string): string {
    if key in row && row[key].Text? then Lower(row[key].text) else ""
  }

  /** Points for the stay: -5 above seven nights, +5 below two, none otherwise. */
  function StayAdjustment(stay: real): (a: int)
    ensures stay > 7.0 ==> a == -5
    ensures stay < 2.0 ==> a == 5
    ensures 2.0 <= stay <= 7.0 ==> a == 0
  {
    if stay > 7.0 then -5 else if stay < 2.0 then 5 else 0
  }

  /** The score before the clamp. */
  function RawProbability(row: Row): real
    requires Scorable(row)
  {
    30.0
    + LeadTimeAdjustment(NumberOr(row, "lead_time", 30.0)) as real
    + DepositAdjustment(RuleText(row, "deposit_type")) as real
    + NumberOr(row, "previous_cancellations", 0.0) * 8.0
    - NumberOr(row, "special_requests", 0.0) * 3.0
    + NumberOr(row, "booking_changes", 0.0) * 5.0
    + SegmentAdjustment(RuleText(row, "market_segment")) as real
    + StayAdjustment(NumberOr(row, "stay_duration", 2.0)) as real
  }

  /** The row's cancellation probability: the raw score clamped to [5, 95]. */
  function RiskProbability(row: Row): (p: real)
    requires Scorable(row)
    ensures 5.0 <= p <= 95.0
    ensures 5.0 <= RawProbability(row) <= 95.0 ==> p == RawProbability(row)
  {
    Clamp(RawProbability(row))
  }

  /** calculate_risk_probability(row): the score accumulated term by term, then clamped. */
  method CalculateRiskProbability(row: Row) returns (probability: real)
    requires Scorable(row)
    ensures probability == RiskProbability(row)
    ensures 5.0 <= probability <= 95.0
  {
    probability := 30.0;

    var leadTime := NumberOr(row, "lead_time", 30.0);
    if leadTime > 90.0 {
      probability := probability + 25.0;
    } else if leadTime > 60.0 {
      probability := probability + 15.0;
    } else if leadTime > 30.0 {
      probability := probability + 10.0;
    } else if leadTime < 7.0 {
      probability := probability - 10.0;
    }
    assert probability == 30.0 + LeadTimeAdjustment(leadTime) as real;

    var deposit := RuleText(row, "deposit_type");
    if deposit == "no_deposit" {
      probability := probability + 20.0;
    } else if deposit == "refundable" {
      probability := probability + 10.0;
    } else if deposit == "non_refundable" {
      probability := probability - 15.0;
    }
    ghost var afterDeposit := probability;
    assert afterDeposit == 30.0 + LeadTimeAdjustment(leadTime) as real + DepositAdjustment(deposit) as real;

    var prevCancel := NumberOr(row, "previous_cancellations", 0.0);
    probability := probability + prevCancel * 8.0;
    var specialReq := NumberOr(row, "special_requests", 0.0);
    probability := probability - specialReq * 3.0;
    var changes := NumberOr(row, "booking_changes", 0.0);
    probability := probability + changes * 5.0;

    var segment := RuleText(row, "market_segment");
    if segment == "online_ta" {
      probability := probability + 5.0;
    } else if segment == "corporate" {
      probability := probability - 10.0;
    } else if segment == "direct" {
      probability := probability - 5.0;
    }
    ghost var afterSegment := probability;
    assert afterSegment == afterDeposit + prevCancel * 8.0 - specialReq * 3.0 + changes * 5.0
      + SegmentAdjustment(segment) as real;

    var stay := NumberOr(row, "stay_duration", 2.0);
    if stay > 7.0 {
      probability := probability - 5.0;
    } else if stay < 2.0 {
      probability := probability + 5.0;
    }
    assert probability == RawProbability(row);

    probability := if 95.0 < probability then 95.0 else probability;
    probability := if 5.0 > probability then 5.0 else probability;
  }

  /**
   * Deposit and segment words match whatever their case: a row whose text in
   * either column is written in capitals scores as the lower-case row.
   */
  lemma CaseInsensitive(row: Row, key: string, text: string)
    requires key == "deposit_type" || key == "market_segment"
    requires Scorable(row)
    ensures Scorable(row[key := Text(text)]) && Scorable(row[key := Text(Lower(text))])
    ensures RiskProbability(row[key := Text(text)]) == RiskProbability(row[key := Text(Lower(text))])
  {
    LowerIdempotent(text);
    var a := row[key := Text(text)];
    var b := row[key := Text(Lower(text))];
    assert forall k :: k in ScoredNumbers ==> k != key;
    SameRuleTexts(row, key, text);
    assert RawProbability(a) == RawProbability(b);
  }

  /** Only the rewritten column's text changes, and it lower-cases to the same word. */
  lemma SameRuleTexts(row: Row, key: string, text: string)
    ensures RuleText(row[key := Text(text)], "deposit_type") == RuleText(row[key := Text(Lower(text))], "deposit_type")
    ensures RuleText(row[key := Text(text)], "market_segment") == RuleText(row[key := Text(Lower(text))], "market_segment")
  {
    LowerIdempotent(text);
  }

  /**
   * With everything else fixed, more previous cancellations or more booking
   * changes never lower the probability, and more special requests never raise it.
   */
  lemma RiskProbabilityMonotone(row: Row, key: string, v: real, w: real)
    requires key in ["previous_cancellations", "booking_changes", "special_requests"]
    requires Scorable(row) && v <= w
    ensures Scorable(row[key := Num(v)]) && Scorable(row[key := Num(w)])
    ensures key != "special_requests" ==> RiskProbability(row[key := Num(v)]) <= RiskProbability(row[key := Num(w)])
    ensures key == "special_requests" ==> RiskProbability(row[key := Num(v)]) >= RiskProbability(row[key := Num(w)])
  {
    var a := row[key := Num(v)];
    var b := row[key := Num(w)];
    assert forall k :: k in ScoredNumbers && k != key ==> NumberOr(a, k, 0.0) == NumberOr(b, k, 0.0);
    assert RuleText(a, "deposit_type") == RuleText(b, "deposit_type");
    assert RuleText(a, "market_segment") == RuleText(b, "market_segment");
  }
}
