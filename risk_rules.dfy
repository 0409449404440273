/**
 * The rule-based cancellation score shared by the booking form and the batch
 * pipeline: the per-attribute adjustments, the clamp to [5, 95] and the four
 * risk buckets.
 */
module RiskRules {

  /** Points added for the lead time: exactly one of +25, +15, +10, -10 or 0 applies. */
  function LeadTimeAdjustment(leadTime: real): (a: int)
    ensures leadTime > 90.0 ==> a == 25
    ensures 60.0 < leadTime <= 90.0 ==> a == 15
    ensures 30.0 < leadTime <= 60.0 ==> a == 10
    ensures 7.0 <= leadTime <= 30.0 ==> a == 0
    ensures leadTime < 7.0 ==> a == -10
  {
    if leadTime > 90.0 then 25
    else if leadTime > 60.0 then 15
    else if leadTime > 30.0 then 10
    else if leadTime < 7.0 then -10
    else 0
  }

  /** Points added for a deposit type; any other text adds nothing. */
  function DepositAdjustment(depositType: string): (a: int)
    ensures depositType == "no_deposit" ==> a == 20
    ensures depositType == "refundable" ==> a == 10
    ensures depositType == "non_refundable" ==> a == -15
    ensures a != 0 <==> depositType in {"no_deposit", "refundable", "non_refundable"}
  {
    if depositType == "no_deposit" then 20
    else if depositType == "refundable" then 10
    else if depositType == "non_refundable" then -15
    else 0
  }

  /** Points added for a market segment; any other text adds nothing. */
  function SegmentAdjustment(marketSegment: string): (a: int)
    ensures marketSegment == "online_ta" ==> a == 5
    ensures marketSegment == "corporate" ==> a == -10
    ensures marketSegment == "direct" ==> a == -5
    ensures a != 0 <==> marketSegment in {"online_ta", "corporate", "direct"}
  {
    if marketSegment == "online_ta" then 5
    else if marketSegment == "corporate" then -10
    else if marketSegment == "direct" then -5
    else 0
  }

  /** max(5, min(95, x)): x itself inside [5, 95], the nearer bound outside it. */
  function Clamp(x: real): (r: real)
    ensures 5.0 <= r <= 95.0
    ensures 5.0 <= x <= 95.0 ==> r == x
    ensures x < 5.0 ==> r == 5.0
    ensures x > 95.0 ==> r == 95.0
  {
    var upper := if 95.0 < x then 95.0 else x;
    if 5.0 > upper then 5.0 else upper
  }

  datatype Risk = LowRisk | MediumRisk | HighRisk | VeryHighRisk {
    /** The label the application shows and reports. */
    function Name(): string {
      match this
      case LowRisk => "Low Risk"
      case MediumRisk => "Medium Risk"
      case HighRisk => "High Risk"
      case VeryHighRisk => "Very High Risk"
    }

    /** The position of the bucket on the ordinal scale, from 0 (low) to 3 (very high). */
    function Rank(): nat {
      match this
      case LowRisk => 0
      case MediumRisk => 1
      case HighRisk => 2
      case VeryHighRisk => 3
    }
  }

  /** The bucket of a probability; each bucket includes its lower bound. */
  function DetermineRiskLevel(probability: real): (r: Risk)
    ensures r == LowRisk <==> probability < 25.0
    ensures r == MediumRisk <==> 25.0 <= probability < 50.0
    ensures r == HighRisk <==> 50.0 <= probability < 75.0
    ensures r == VeryHighRisk <==> 75.0 <= probability
  {
    if probability < 25.0 then LowRisk
    else if probability < 50.0 then MediumRisk
    else if probability < 75.0 then HighRisk
    else VeryHighRisk
  }

  /** A higher probability never lands in a lower bucket. */
  lemma RiskLevelMonotone(p: real, q: real)
    requires p <= q
    ensures DetermineRiskLevel(p).Rank() <= DetermineRiskLevel(q).Rank()
  {
  }

  /** Different buckets have different labels, so a label identifies its bucket. */
  lemma NamesDistinct(a: Risk, b: Risk)
    requires a.Name() == b.Name()
    ensures a == b
  {
  }
}
