/**
 * The single-booking risk estimate of the prediction page: the additive score
 * over the form's fields, its risk bucket and colour, the key factors that
 * explain it, the recommendations, and the displayed confidence.
 */
module PredictPage {
  import opened RiskRules

  /** The prediction form's fields (numbers are whole numbers; selects hold their option values). */
  datatype BookingForm = BookingForm(
    leadTime: int,
    arrivalMonth: string,
    stayDuration: int,
    adults: int,
    children: int,
    depositType: string,
    previousCancellations: int,
    previousBookings: int,
    specialRequests: int,
    bookingChanges: int,
    marketSegment: string,
    roomType: string,
    mealPlan: string)

  /** What the page shows for one booking. */
  datatype Prediction = Prediction(
    probability: int,
    confidence: int,
    riskLevel: string,
    riskColor: string,
    keyFactors: seq<string>,
    recommendations: seq<string>)

  const LongLeadTime := "Long lead time increases risk"
  const NoDepositRequired := "No deposit required"
  const PreviousCancellations := "Guest has previous cancellations"
  const Modifications := "Multiple booking modifications"
  const ManyRequests := "High special request count shows commitment"
  const StandardPattern := "Standard booking pattern"

  /** The key-factor messages in the order the page lists them. */
  const FactorMessages: seq<string> := [LongLeadTime, NoDepositRequired, PreviousCancellations, Modifications, ManyRequests]

  const SendReminder := "Send confirmation reminder 48h before arrival"
  const OfferUpgrade := "Consider offering upgrade incentive to reduce cancellation"
  const RequestDeposit := "Request deposit to reduce cancellation risk"
  const FollowUp := "Follow up with guest to confirm details and build engagement"
  const OverbookingBuffer := "Enable overbooking buffer for this risk category"

  // ---------------------------------------------------------------------
  // Specification of the score
  // ---------------------------------------------------------------------

  /** The score before clamping: base 30 plus every adjustment. */
  function RawScore(f: BookingForm): (raw: int) {
    30 + LeadTimeAdjustment(f.leadTime as real) + DepositAdjustment(f.depositType)
    + 8 * f.previousCancellations - 3 * f.specialRequests + 5 * f.bookingChanges
    + SegmentAdjustment(f.marketSegment)
  }

  /** The displayed probability: the raw score clamped to [5, 95]. */
  function Score(f: BookingForm): (p: int)
    ensures 5 <= p <= 95
    ensures p as real == Clamp(RawScore(f) as real)
  {
    var raw := RawScore(f);
    if raw < 5 then 5 else if raw > 95 then 95 else raw
  }

  /** More previous cancellations or booking changes, or fewer special requests, never lower the score. */
  lemma ScoreMonotone(f: BookingForm, g: BookingForm)
    requires g == f.(previousCancellations := g.previousCancellations,
                     bookingChanges := g.bookingChanges,
                     specialRequests := g.specialRequests)
    requires g.previousCancellations >= f.previousCancellations
    requires g.bookingChanges >= f.bookingChanges
    requires g.specialRequests <= f.specialRequests
    ensures Score(g) >= Score(f)
  {
  }

  // ---------------------------------------------------------------------
  // Key factors and recommendations
  // ---------------------------------------------------------------------

  /** Whether the j-th key factor applies, j indexing FactorMessages. */
  predicate Triggered(f: BookingForm, j: nat)
    requires j < 5
  {
    if j == 0 then f.leadTime > 60
    else if j == 1 then f.depositType == "no_deposit"
    else if j == 2 then f.previousCancellations > 0
    else if j == 3 then f.bookingChanges > 0
    else f.specialRequests > 2
  }

  /** The position of a message in FactorMessages (5 for any other text). */
  function FactorRank(message: string): nat {
    if message == LongLeadTime then 0
    else if message == NoDepositRequired then 1
    else if message == PreviousCancellations then 2
    else if message == Modifications then 3
    else if message == ManyRequests then 4
    else 5
  }

  /** The messages pushed by the key-factor checks, in the page's order. */
  function TriggeredFactors(f: BookingForm): seq<string> {
    (if f.leadTime > 60 then [LongLeadTime] else [])
    + (if f.depositType == "no_deposit" then [NoDepositRequired] else [])
    + (if f.previousCancellations > 0 then [PreviousCancellations] else [])
    + (if f.bookingChanges > 0 then [Modifications] else [])
    + (if f.specialRequests > 2 then [ManyRequests] else [])
  }

  /** The key factors shown: the triggered ones, or the standard-pattern message when none is. */
  function KeyFactors(f: BookingForm): seq<string> {
    var triggered := TriggeredFactors(f);
    if |triggered| > 0 then triggered else [StandardPattern]
  }

  /** Every triggered message is one of the five factor messages. */
  lemma TriggeredRanks(f: BookingForm)
    ensures forall i :: 0 <= i < |TriggeredFactors(f)| ==> FactorRank(TriggeredFactors(f)[i]) < 5
  {
  }

  /** The key factors are never empty, and are the standard-pattern message alone exactly when nothing triggers. */
  lemma KeyFactorsDefault(f: BookingForm)
    ensures |KeyFactors(f)| > 0
    ensures KeyFactors(f) == [StandardPattern] <==> forall j :: 0 <= j < 5 ==> !Triggered(f, j)
  {
    var t := TriggeredFactors(f);
    if |t| == 0 {
      assert !Triggered(f, 0) && !Triggered(f, 1) && !Triggered(f, 2) && !Triggered(f, 3) && !Triggered(f, 4);
    } else {
      TriggeredRanks(f);
      assert FactorRank(t[0]) < 5 == FactorRank(StandardPattern);
      assert Triggered(f, 0) || Triggered(f, 1) || Triggered(f, 2) || Triggered(f, 3) || Triggered(f, 4);
    }
  }

  /** A factor message is listed exactly when its check triggers. */
  lemma KeyFactorsMembership(f: BookingForm)
    ensures forall j :: 0 <= j < 5 ==> (FactorMessages[j] in KeyFactors(f) <==> Triggered(f, j))
  {
    var t := TriggeredFactors(f);
    assert FactorRank(StandardPattern) == 5;
    forall j | 0 <= j < 5
      ensures FactorMessages[j] in KeyFactors(f) <==> Triggered(f, j)
    {
      assert FactorRank(FactorMessages[j]) == j;
      if |t| == 0 {
        assert !Triggered(f, j);
      }
    }
  }

  /** The listed factors follow the fixed order, so none is listed twice. */
  lemma KeyFactorsOrdered(f: BookingForm)
    ensures forall i, k :: 0 <= i < k < |KeyFactors(f)| ==> FactorRank(KeyFactors(f)[i]) < FactorRank(KeyFactors(f)[k])
  {
  }

  /** The recommendations, in the order the page pushes them. */
  function Recommendations(f: BookingForm, probability: int): (advice: seq<string>) {
    (if probability > 50 then [SendReminder, OfferUpgrade] else [])
    + (if f.depositType == "no_deposit" && probability > 40 then [RequestDeposit] else [])
    + (if f.specialRequests == 0 && probability > 40 then [FollowUp] else [])
    + [OverbookingBuffer]
  }

  /**
   * The recommendations always end with the overbooking advice; the reminder and
   * the upgrade come exactly above 50; the deposit request exactly for a booking
   * without deposit above 40; the follow-up exactly for a booking without special
   * requests above 40.
   */
  lemma RecommendationsContents(f: BookingForm, probability: int)
    ensures var r := Recommendations(f, probability);
      |r| > 0 && r[|r| - 1] == OverbookingBuffer
      && (SendReminder in r <==> probability > 50)
      && (OfferUpgrade in r <==> probability > 50)
      && (RequestDeposit in r <==> f.depositType == "no_deposit" && probability > 40)
      && (FollowUp in r <==> f.specialRequests == 0 && probability > 40)
  {
    var r := Recommendations(f, probability);
    assert r[|r| - 1] == OverbookingBuffer;
  }

  // ---------------------------------------------------------------------
  // Confidence and colour
  // ---------------------------------------------------------------------

  /** JavaScript's Math.round: the nearest integer, halves rounded up. */
  function JsRound(x: real): int {
    (x + 0.5).Floor
  }

  /** The displayed confidence for a random draw in [0, 1): a whole number from 85 to 95. */
  function Confidence(draw: real): (c: int)
    requires 0.0 <= draw < 1.0
    ensures 85 <= c <= 95
  {
    JsRound(85.0 + draw * 10.0)
  }

  /** The text colour of a risk label; grey for any other text. */
  function GetRiskColor(riskLevel: string): (color: string)
    ensures color == "text-gray-600" <==> forall r: Risk :: riskLevel != r.Name()
  {
    if riskLevel == "Low Risk" then assert riskLevel == LowRisk.Name(); "text-green-600"
    else if riskLevel == "Medium Risk" then assert riskLevel == MediumRisk.Name(); "text-yellow-600"
    else if riskLevel == "High Risk" then assert riskLevel == HighRisk.Name(); "text-orange-600"
    else if riskLevel == "Very High Risk" then assert riskLevel == VeryHighRisk.Name(); "text-red-600"
    else "text-gray-600"
  }

  // ---------------------------------------------------------------------
  // The prediction itself
  // ---------------------------------------------------------------------

  /** The running score of the prediction handler: base 30, each adjustment added in turn, then clamped. */
  method ComputeProbability(form: BookingForm) returns (probability: int)
    ensures probability == Score(form)
  {
    probability := 30;

    if form.leadTime > 90 {
      probability := probability + 25;
    } else if form.leadTime > 60 {
      probability := probability + 15;
    } else if form.leadTime > 30 {
      probability := probability + 10;
    } else if form.leadTime < 7 {
      probability := probability - 10;
    }
    assert probability == 30 + LeadTimeAdjustment(form.leadTime as real);

    if form.depositType == "no_deposit" {
      probability := probability + 20;
    } else if form.depositType == "refundable" {
      probability := probability + 10;
    } else if form.depositType == "non_refundable" {
      probability := probability - 15;
    }

    probability := probability + form.previousCancellations * 8;
    probability := probability - form.specialRequests * 3;
    probability := probability + form.bookingChanges * 5;

    if form.marketSegment == "online_ta" {
      probability := probability + 5;
    } else if form.marketSegment == "corporate" {
      probability := probability - 10;
    } else if form.marketSegment == "direct" {
      probability := probability - 5;
    }
    assert probability == RawScore(form);

    var upper := if 95 < probability then 95 else probability;
    probability := if 5 > upper then 5 else upper;
  }

  /** The label and colour the handler picks for a probability. */
  method ClassifyRisk(probability: int) returns (riskLevel: string, riskColor: string)
    ensures riskLevel == DetermineRiskLevel(probability as real).Name()
    ensures riskColor == GetRiskColor(riskLevel)
  {
    if probability < 25 {
      riskLevel, riskColor := "Low Risk", "text-green-600";
    } else if probability < 50 {
      riskLevel, riskColor := "Medium Risk", "text-yellow-600";
    } else if probability < 75 {
      riskLevel, riskColor := "High Risk", "text-orange-600";
    } else {
      riskLevel, riskColor := "Very High Risk", "text-red-600";
    }
  }

  /** The key-factor messages the handler pushes, one check after another. */
  method CollectKeyFactors(form: BookingForm) returns (keyFactors: seq<string>)
    ensures keyFactors == TriggeredFactors(form)
  {
    keyFactors := [];
    if form.leadTime > 60 { keyFactors := keyFactors + [LongLeadTime]; }
    ghost var expected := if form.leadTime > 60 then [LongLeadTime] else [];
    assert keyFactors == expected;
    if form.depositType == "no_deposit" { keyFactors := keyFactors + [NoDepositRequired]; }
    expected := expected + if form.depositType == "no_deposit" then [NoDepositRequired] else [];
    assert keyFactors == expected;
    if form.previousCancellations > 0 { keyFactors := keyFactors + [PreviousCancellations]; }
    expected := expected + if form.previousCancellations > 0 then [PreviousCancellations] else [];
    assert keyFactors == expected;
    if form.bookingChanges > 0 { keyFactors := keyFactors + [Modifications]; }
    expected := expected + if form.bookingChanges > 0 then [Modifications] else [];
    assert keyFactors == expected;
    if form.specialRequests > 2 { keyFactors := keyFactors + [ManyRequests]; }
  }

  /** The recommendations the handler pushes for a clamped probability. */
  method CollectRecommendations(form: BookingForm, probability: int) returns (recommendations: seq<string>)
    ensures recommendations == Recommendations(form, probability)
  {
    recommendations := [];
    if probability > 50 {
      recommendations := recommendations + [SendReminder];
      recommendations := recommendations + [OfferUpgrade];
    }
    ghost var expected := if probability > 50 then [SendReminder, OfferUpgrade] else [];
    assert recommendations == expected;
    if form.depositType == "no_deposit" && probability > 40 {
      recommendations := recommendations + [RequestDeposit];
    }
    expected := expected + if form.depositType == "no_deposit" && probability > 40 then [RequestDeposit] else [];
    assert recommendations == expected;
    if form.specialRequests == 0 && probability > 40 {
      recommendations := recommendations + [FollowUp];
    }
    expected := expected + if form.specialRequests == 0 && probability > 40 then [FollowUp] else [];
    assert recommendations == expected;
    recommendations := recommendations + [OverbookingBuffer];
  }

  /**
   * The page's prediction handler: the clamped score, its label and colour, the
   * key factors (or the standard-pattern message), the recommendations and the
   * confidence. draw stands for the value of Math.random().
   */
  method HandlePredict(form: BookingForm, draw: real) returns (p: Prediction)
    requires 0.0 <= draw < 1.0
    ensures p.probability == Score(form)
    ensures p.riskLevel == DetermineRiskLevel(p.probability as real).Name()
    ensures p.riskColor == GetRiskColor(p.riskLevel)
    ensures p.keyFactors == KeyFactors(form)
    ensures p.recommendations == Recommendations(form, p.probability)
    ensures p.confidence == Confidence(draw) && 85 <= p.confidence <= 95
  {
    var probability := ComputeProbability(form);
    var riskLevel, riskColor := ClassifyRisk(probability);
    var keyFactors := CollectKeyFactors(form);
    var recommendations := CollectRecommendations(form, probability);
    p := Prediction(
      probability,
      JsRound(85.0 + draw * 10.0),
      riskLevel,
      riskColor,
      if |keyFactors| > 0 then keyFactors else [StandardPattern],
      recommendations);
  }
}
