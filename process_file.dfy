/**
 * process_file: choose a reader by the file's extension, reject an empty
 * frame, preprocess it, score every row in order, and report the
 * predictions, their statistics and the frame's missing-value counts.
 */
module Pipeline {
  import opened Wrappers
  import opened Text
  import opened Stats
  import opened Frames
  import opened Preprocess
  import opened Scoring
  import opened RiskRules

  datatype Prediction = Prediction(
    bookingId: nat,
    cancellationProbability: real,
    riskLevel: Risk,
    confidence: real)

  datatype RiskDistribution = RiskDistribution(low: nat, medium: nat, high: nat, veryHigh: nat)

  datatype Statistics = Statistics(
    averageProbability: real,
    medianProbability: real,
    minProbability: real,
    maxProbability: real,
    riskDistribution: RiskDistribution)

  datatype DataQuality = DataQuality(
    missingBefore: map<string, nat>,
    missingAfter: map<string, nat>,
    rowsProcessed: nat,
    columnsProcessed: nat)

  datatype Report = Report(
    totalBookings: nat,
    predictions: seq<Prediction>,
    statistics: Statistics,
    dataQuality: DataQuality)

  /** What process_file returns: a report, or an object holding only an error message. */
  datatype Outcome = Reported(report: Report) | Error(message: string)

  const UnsupportedFormat: string := "Unsupported file format. Please upload CSV or Excel file."
  const EmptyFile: string := "File is empty"
  const ProcessingError: string := "Error processing file: "

  /** The reader a path selects. */
  datatype Format = Csv | Excel | Unsupported

  predicate EndsWith(s: string, suffix: string) {
    |suffix| <= |s| && s[|s| - |suffix|..] == suffix
  }

  /** The reader the extension selects: .csv the CSV reader, .xlsx or .xls the Excel one, anything else none. */
  function FormatOf(path: string): (f: Format)
    ensures EndsWith(path, ".csv") ==> f == Csv
    ensures f == Excel <==> !EndsWith(path, ".csv") && (EndsWith(path, ".xlsx") || EndsWith(path, ".xls"))
    ensures f == Unsupported <==> !EndsWith(path, ".csv") && !EndsWith(path, ".xlsx") && !EndsWith(path, ".xls")
  {
    if EndsWith(path, ".csv") then Csv
    else if EndsWith(path, ".xlsx") || EndsWith(path, ".xls") then Excel
    else Unsupported
  }

  /** What the readers can hand back: a frame whose columns are named once and all have the same length. */
  ghost predicate ReadersWellFormed(reader: Format -> Result<Table, string>) {
    forall f :: reader(f).Success? ==> WellFormed(reader(f).value)
  }

  /** np.random.rand() for each row, in row order: draws in [0, 1). */
  ghost predicate UnitDraws(draw: nat -> real) {
    forall i :: 0.0 <= draw(i) < 1.0
  }

  // ---------------------------------------------------------------------
  // The report as a function of the frame
  // ---------------------------------------------------------------------

  /** Every row of a preprocessed frame can be scored. */
  lemma PreprocessedRowsScorable(t: Table)
    requires WellFormed(t)
    ensures forall k :: 0 <= k < Preprocessed(t).height ==> Scorable(RowAt(Preprocessed(t), k))
  {
    PreprocessedComplete(t);
    var r := Preprocessed(t);
    forall k | 0 <= k < r.height
      ensures Scorable(RowAt(r, k))
    {
      forall key | key in ScoredNumbers
        ensures NumberAt(RowAt(r, k), key)
      {
        assert key in NumericColumns;
      }
    }
  }

  /** The prediction of row k of the preprocessed frame. */
  function PredictionAt(r: Table, k: nat, draw: nat -> real): Prediction
    requires WellFormed(r) && k < r.height && Scorable(RowAt(r, k))
  {
    var p := RiskProbability(RowAt(r, k));
    Prediction(k + 1, p, DetermineRiskLevel(p), 85.0 + draw(k) * 10.0)
  }

  ghost predicate AllScorable(r: Table)
    requires WellFormed(r)
  {
    forall k :: 0 <= k < r.height ==> Scorable(RowAt(r, k))
  }

  function Predictions(r: Table, draw: nat -> real): (ps: seq<Prediction>)
    requires WellFormed(r) && AllScorable(r)
    ensures |ps| == r.height
  {
    seq(r.height, k requires 0 <= k < r.height => PredictionAt(r, k, draw))
  }

  function Probabilities(ps: seq<Prediction>): (xs: seq<real>)
    ensures |xs| == |ps|
    ensures forall k :: 0 <= k < |ps| ==> xs[k] == ps[k].cancellationProbability
  {
    seq(|ps|, k requires 0 <= k < |ps| => ps[k].cancellationProbability)
  }

  /** sum(1 for p in predictions if p["risk_level"] == level). */
  function CountLevel(ps: seq<Prediction>, level: Risk): nat {
    if |ps| == 0 then 0
    else (if ps[0].riskLevel == level then 1 else 0) + CountLevel(ps[1..], level)
  }

  function Distribution(ps: seq<Prediction>): RiskDistribution {
    RiskDistribution(
      CountLevel(ps, LowRisk), CountLevel(ps, MediumRisk),
      CountLevel(ps, HighRisk), CountLevel(ps, VeryHighRisk))
  }

  function StatisticsOf(ps: seq<Prediction>): Statistics
    requires |ps| > 0
  {
    var xs := Probabilities(ps);
    Statistics(Mean(xs), Median(xs), Min(xs), Max(xs), Distribution(ps))
  }

  /** The report of a non-empty frame t whose preprocessed form is r. */
  function ReportOf(t: Table, draw: nat -> real): Report
    requires WellFormed(t) && !Empty(t)
  {
    var r := Preprocessed(t);
    PreprocessedRowsScorable(t);
    var ps := Predictions(r, draw);
    Report(
      r.height, ps, StatisticsOf(ps),
      DataQuality(MissingCounts(t), MissingCounts(r), r.height, |r.header|))
  }

  /** process_file as a function of the path, the readers' results and the draws. */
  function Processed(path: string, reader: Format -> Result<Table, string>, draw: nat -> real): Outcome
    requires ReadersWellFormed(reader)
  {
    var format := FormatOf(path);
    if format == Unsupported then Error(UnsupportedFormat)
    else
      match reader(format)
      case Failure(e) => Error(ProcessingError + e)
      case Success(t) =>
        if Empty(t) then Error(EmptyFile) else Reported(ReportOf(t, draw))
  }

  // ---------------------------------------------------------------------
  // The procedure
  // ---------------------------------------------------------------------

  /**
   * The statistics block, from the probabilities and the level counts: the
   * four counts cover every prediction once, the minimum, median and maximum
   * are ordered with the average between the extremes, and scores in [5, 95]
   * keep every figure in [5, 95].
   */
  method Summarize(predictions: seq<Prediction>) returns (statistics: Statistics)
    requires |predictions| > 0
    ensures statistics == StatisticsOf(predictions)
    ensures var d := statistics.riskDistribution;
      d.low + d.medium + d.high + d.veryHigh == |predictions|
    ensures statistics.minProbability <= statistics.medianProbability <= statistics.maxProbability
    ensures statistics.minProbability <= statistics.averageProbability <= statistics.maxProbability
    ensures (forall k :: 0 <= k < |predictions| ==> 5.0 <= predictions[k].cancellationProbability <= 95.0) ==>
      5.0 <= statistics.minProbability && statistics.maxProbability <= 95.0
  {
    var probabilities := Probabilities(predictions);
    var distribution := RiskDistribution(
      CountLevel(predictions, LowRisk), CountLevel(predictions, MediumRisk),
      CountLevel(predictions, HighRisk), CountLevel(predictions, VeryHighRisk));
    statistics := Statistics(Mean(probabilities), Median(probabilities), Min(probabilities), Max(probabilities), distribution);
    CountLevelsSum(predictions);
    StatisticsOrdered(predictions);
  }

  /** The loop over df.iterrows(): one prediction per row, appended in row order. */
  method PredictRows(df: DataFrame, draw: nat -> real) returns (predictions: seq<Prediction>)
    requires df.Valid() && AllScorable(df.View())
    ensures predictions == Predictions(df.View(), draw)
  {
    ghost var all := Predictions(df.View(), draw);
    predictions := [];
    for idx := 0 to df.height
      invariant predictions == all[..idx]
    {
      var row := RowAt(df.View(), idx);
      var probability := CalculateRiskProbability(row);
      var riskLevel := DetermineRiskLevel(probability);
      var prediction := Prediction(idx + 1, probability, riskLevel, 85.0 + draw(idx) * 10.0);
      assert prediction == all[idx];
      PrefixStep(all, idx);
      predictions := predictions + [prediction];
    }
    assert all[..df.height] == all;
  }

  lemma PrefixStep<T>(s: seq<T>, i: nat)
    requires i < |s|
    ensures s[..i + 1] == s[..i] + [s[i]]
  {
  }

  /**
   * process_file(file_path). The readers are parameters: reader(f) is what
   * pandas' reader for format f returns (a frame, or the message of the
   * exception it raises); draw(k) is the random draw for row k.
   */
  method ProcessFile(path: string, reader: Format -> Result<Table, string>, draw: nat -> real) returns (outcome: Outcome)
    requires ReadersWellFormed(reader)
    ensures outcome == Processed(path, reader, draw)
  {
    var format := FormatOf(path);
    if format == Unsupported {
      return Error(UnsupportedFormat);
    }
    var read := reader(format);
    if read.Failure? {
      return Error(ProcessingError + read.error);
    }
    var t := read.value;
    if Empty(t) {
      return Error(EmptyFile);
    }

    var df := new DataFrame(t);
    var missingBefore := MissingCounts(df.View());
    PreprocessData(df);
    var missingAfter := MissingCounts(df.View());
    PreprocessedRowsScorable(t);

    var predictions := PredictRows(df, draw);
    var statistics := Summarize(predictions);
    outcome := Reported(Report(
      df.height, predictions, statistics,
      DataQuality(missingBefore, missingAfter, df.height, |df.header|)));
  }

  // ---------------------------------------------------------------------
  // What the outcome promises
  // ---------------------------------------------------------------------

  /**
   * The error cases: an unsupported extension, a reader's exception, an
   * empty frame; in each the outcome carries the message and no report.
   * Every other input gives a report.
   */
  lemma ProcessedErrors(path: string, reader: Format -> Result<Table, string>, draw: nat -> real)
    requires ReadersWellFormed(reader)
    ensures var o := Processed(path, reader, draw);
      && (FormatOf(path) == Unsupported ==> o == Error(UnsupportedFormat))
      && (FormatOf(path) != Unsupported && reader(FormatOf(path)).Failure? ==>
            o == Error(ProcessingError + reader(FormatOf(path)).error))
      && (FormatOf(path) != Unsupported && reader(FormatOf(path)).Success? && Empty(reader(FormatOf(path)).value) ==>
            o == Error(EmptyFile))
      && (o.Reported? <==>
            FormatOf(path) != Unsupported && reader(FormatOf(path)).Success? && !Empty(reader(FormatOf(path)).value))
  {
  }

  /**
   * Predictions follow the rows of the frame: one per row, in order,
   * numbered from 1, each the row's score in [5, 95] with its bucket and a
   * confidence in [85, 95).
   */
  lemma PredictionsFollowRows(r: Table, draw: nat -> real)
    requires WellFormed(r) && AllScorable(r) && UnitDraws(draw)
    ensures var ps := Predictions(r, draw);
      forall k :: 0 <= k < |ps| ==>
        && ps[k].bookingId == k + 1
        && ps[k].cancellationProbability == RiskProbability(RowAt(r, k))
        && 5.0 <= ps[k].cancellationProbability <= 95.0
        && ps[k].riskLevel == DetermineRiskLevel(ps[k].cancellationProbability)
        && 85.0 <= ps[k].confidence < 95.0
  {
    var ps := Predictions(r, draw);
    forall k | 0 <= k < |ps|
      ensures 85.0 <= ps[k].confidence < 95.0
    {
      assert 0.0 <= draw(k) < 1.0;
    }
  }

  /** The report holds one prediction per row of the preprocessed frame, as PredictionsFollowRows describes. */
  lemma ReportPredictions(t: Table, draw: nat -> real)
    requires WellFormed(t) && !Empty(t)
    ensures AllScorable(Preprocessed(t))
    ensures var rep := ReportOf(t, draw);
      && rep.totalBookings == rep.dataQuality.rowsProcessed == t.height
      && rep.predictions == Predictions(Preprocessed(t), draw)
  {
    PreprocessedRowsScorable(t);
  }

  lemma {:induction false} CountLevelsSum(ps: seq<Prediction>)
    ensures CountLevel(ps, LowRisk) + CountLevel(ps, MediumRisk)
          + CountLevel(ps, HighRisk) + CountLevel(ps, VeryHighRisk) == |ps|
  {
    if |ps| > 0 {
      CountLevelsSum(ps[1..]);
    }
  }

  /** The four bucket counts add up to the number of bookings. */
  lemma DistributionTotal(t: Table, draw: nat -> real)
    requires WellFormed(t) && !Empty(t)
    ensures var rep := ReportOf(t, draw);
      var d := rep.statistics.riskDistribution;
      d.low + d.medium + d.high + d.veryHigh == rep.totalBookings
  {
    CountLevelsSum(ReportOf(t, draw).predictions);
  }

  /** Minimum, median, average and maximum are ordered, and all lie in [5, 95] when every score does. */
  lemma StatisticsOrdered(ps: seq<Prediction>)
    requires |ps| > 0
    ensures var s := StatisticsOf(ps);
      && s.minProbability <= s.medianProbability <= s.maxProbability
      && s.minProbability <= s.averageProbability <= s.maxProbability
    ensures var s := StatisticsOf(ps);
      (forall k :: 0 <= k < |ps| ==> 5.0 <= ps[k].cancellationProbability <= 95.0) ==>
        5.0 <= s.minProbability && s.maxProbability <= 95.0
  {
    var xs := Probabilities(ps);
    MedianBounds(xs);
    MeanBounds(xs);
    assert Min(xs) in xs && Max(xs) in xs;
  }

  /** The report's statistics obey those bounds. */
  lemma ReportStatistics(t: Table, draw: nat -> real)
    requires WellFormed(t) && !Empty(t) && UnitDraws(draw)
    ensures var s := ReportOf(t, draw).statistics;
      && 5.0 <= s.minProbability
      && s.minProbability <= s.medianProbability <= s.maxProbability
      && s.minProbability <= s.averageProbability <= s.maxProbability
      && s.maxProbability <= 95.0
  {
    ReportPredictions(t, draw);
    var r := Preprocessed(t);
    PredictionsFollowRows(r, draw);
    StatisticsInRange(Predictions(r, draw));
  }

  /** Scores in [5, 95] give ordered statistics in [5, 95]. */
  lemma StatisticsInRange(ps: seq<Prediction>)
    requires |ps| > 0
    requires forall k :: 0 <= k < |ps| ==> 5.0 <= ps[k].cancellationProbability <= 95.0
    ensures var s := StatisticsOf(ps);
      && 5.0 <= s.minProbability
      && s.minProbability <= s.medianProbability <= s.maxProbability
      && s.minProbability <= s.averageProbability <= s.maxProbability
      && s.maxProbability <= 95.0
  {
    StatisticsOrdered(ps);
  }

  /**
   * Data quality: the missing counts before and after keep only positive
   * counts, the counts after name none of the expected columns, other
   * columns keep their counts, and at least the 13 expected columns are processed.
   */
  lemma ReportDataQuality(t: Table, draw: nat -> real)
    requires WellFormed(t) && !Empty(t)
    ensures var q := ReportOf(t, draw).dataQuality;
      && (forall c :: c in q.missingBefore ==> c in t.columns && q.missingBefore[c] > 0)
      && (forall c :: c in q.missingAfter ==> q.missingAfter[c] > 0 && c !in ExpectedColumns)
      && (forall c :: c in q.missingBefore && c !in ExpectedColumns ==>
            c in q.missingAfter && q.missingAfter[c] == q.missingBefore[c])
      && q.columnsProcessed >= 13
  {
    PreprocessedNoMissingExpected(t);
    PreprocessedOtherCounts(t);
    PreprocessedWidth(t);
  }

  /** A row holding the column defaults: 30 + 20 (no deposit) + 5 (online travel agent) = 55. */
  lemma DefaultRowScore(row: Row)
    requires "lead_time" in row && row["lead_time"] == Num(30.0)
    requires "deposit_type" in row && row["deposit_type"] == Text("no_deposit")
    requires "previous_cancellations" in row && row["previous_cancellations"] == Num(0.0)
    requires "special_requests" in row && row["special_requests"] == Num(0.0)
    requires "booking_changes" in row && row["booking_changes"] == Num(0.0)
    requires "market_segment" in row && row["market_segment"] == Text("online_ta")
    requires "stay_duration" in row && row["stay_duration"] == Num(2.0)
    ensures Scorable(row) && RiskProbability(row) == 55.0
  {
    assert Lower("no_deposit") == "no_deposit";
    assert Lower("online_ta") == "online_ta";
  }

  /** A file with none of the expected columns: after preprocessing every expected column holds its default. */
  lemma AbsentDefaults(t: Table, k: nat)
    requires WellFormed(t) && k < t.height
    requires forall c :: c in ExpectedColumns ==> c !in t.columns
    ensures forall c :: c in NumericColumns ==>
      c in Preprocessed(t).columns && Preprocessed(t).columns[c][k] == Num(NumericDefault(c))
    ensures forall c :: c in CategoricalColumns ==>
      c in Preprocessed(t).columns && Preprocessed(t).columns[c][k] == Text(CategoricalDefault(c))
  {
    PreprocessedColumns(t);
    BlankFill(k, t.height);
    ColumnListsDistinct();
  }

  /** A row of a frame whose expected columns hold their defaults scores 55. */
  lemma DefaultsFromColumns(r: Table, k: nat)
    requires WellFormed(r) && k < r.height
    requires forall c :: c in NumericColumns ==> c in r.columns && r.columns[c][k] == Num(NumericDefault(c))
    requires forall c :: c in CategoricalColumns ==> c in r.columns && r.columns[c][k] == Text(CategoricalDefault(c))
    ensures Scorable(RowAt(r, k)) && RiskProbability(RowAt(r, k)) == 55.0
  {
    assert "lead_time" in NumericColumns && "stay_duration" in NumericColumns;
    assert "previous_cancellations" in NumericColumns && "special_requests" in NumericColumns;
    assert "booking_changes" in NumericColumns;
    assert "deposit_type" in CategoricalColumns && "market_segment" in CategoricalColumns;
    DefaultRowScore(RowAt(r, k));
  }

  /** A row of a file with none of the expected columns scores 55 once preprocessed. */
  lemma DefaultsOnlyRowScore(t: Table, k: nat)
    requires WellFormed(t) && k < t.height
    requires forall c :: c in ExpectedColumns ==> c !in t.columns
    ensures Scorable(RowAt(Preprocessed(t), k)) && RiskProbability(RowAt(Preprocessed(t), k)) == 55.0
  {
    AbsentDefaults(t, k);
    DefaultsFromColumns(Preprocessed(t), k);
  }

  /**
   * A file none of whose columns is an expected one: every row is scored on
   * the defaults (lead time 30, no deposit, online travel agent, two nights,
   * no history) and gets 55, High Risk.
   */
  lemma DefaultsOnlyScore(t: Table, draw: nat -> real)
    requires WellFormed(t) && !Empty(t)
    requires forall c :: c in ExpectedColumns ==> c !in t.columns
    ensures forall k :: 0 <= k < |ReportOf(t, draw).predictions| ==>
      ReportOf(t, draw).predictions[k].cancellationProbability == 55.0
      && ReportOf(t, draw).predictions[k].riskLevel == HighRisk
  {
    ReportPredictions(t, draw);
    var r := Preprocessed(t);
    var ps := Predictions(r, draw);
    forall k | 0 <= k < |ps|
      ensures ps[k].cancellationProbability == 55.0 && ps[k].riskLevel == HighRisk
    {
      DefaultsOnlyRowScore(t, k);
      assert ps[k] == PredictionAt(r, k, draw);
    }
  }

  /** The blank column's steps give each cell the column default. */
  lemma BlankFill(k: nat, n: nat)
    requires k < n
    ensures forall c :: c in NumericColumns ==> FillColumn(Numeric, c, Blank(n))[k] == Num(NumericDefault(c))
    ensures forall c :: c in CategoricalColumns ==> FillColumn(Categorical, c, Blank(n))[k] == Text(CategoricalDefault(c))
  {
    var b := Blank(n);
    assert |Numbers(Coerced(b))| == 0;
    assert |Present(b)| == 0;
  }
}
