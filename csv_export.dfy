/**
 * The text of the CSV file the prediction page offers for download after a
 * batch analysis: a header line, one line per prediction, and a summary block
 * with the statistics and the risk distribution.
 *
 * The batch report reaches the page as JSON whose numbers carry at most two
 * decimals; the model holds those numbers as whole hundredths, and NumText
 * prints them as JavaScript's String(number) does.
 */
module CsvExport {
  import opened Wrappers
  import opened Text

  /** One prediction of the batch report (probability and confidence in hundredths). */
  datatype BatchPrediction = BatchPrediction(
    bookingId: int,
    cancellationProbability: int,
    riskLevel: string,
    confidence: int)

  /** The report's bucket counts as the page receives them. */
  datatype BatchDistribution = BatchDistribution(low: int, medium: int, high: int, veryHigh: int)

  /** The report's statistics (probabilities in hundredths). */
  datatype BatchStatistics = BatchStatistics(
    averageProbability: int,
    medianProbability: int,
    minProbability: int,
    maxProbability: int,
    riskDistribution: BatchDistribution)

  /** The parts of the batch report that the download uses. */
  datatype BatchResult = BatchResult(
    totalBookings: int,
    predictions: seq<BatchPrediction>,
    statistics: BatchStatistics)

  // ---------------------------------------------------------------------
  // Numbers as JavaScript prints them
  // ---------------------------------------------------------------------

  /** The decimals of a fraction 1..99 hundredths, trailing zero dropped. */
  function FractionText(f: nat): string
    requires 0 < f < 100
  {
    if f % 10 == 0 then [DigitChar(f / 10)] else [DigitChar(f / 10), DigitChar(f % 10)]
  }

  predicate NumeralChar(c: char) {
    IsDigit(c) || c == '-' || c == '.'
  }

  /** The digits of n hundredths: the whole part, then a point and the decimals when there are any. */
  function Magnitude(n: nat): (s: string)
    ensures |s| > 0 && IsDigit(s[0])
    ensures forall i :: 0 <= i < |s| ==> NumeralChar(s[i])
  {
    var whole := NatText(n / 100);
    assert AllDigits(whole);
    whole + (if n % 100 == 0 then "" else "." + FractionText(n % 100))
  }

  /** String(c / 100) for a number of c hundredths. */
  function NumText(c: int): (s: string)
    ensures forall i :: 0 <= i < |s| ==> NumeralChar(s[i])
  {
    if c < 0 then "-" + Magnitude(-c) else Magnitude(c)
  }

  lemma FractionValue(f: nat)
    requires 0 < f < 100
    ensures AllDigits(FractionText(f))
    ensures DecimalFraction(FractionText(f)) == f as real / 100.0
  {
    var t := FractionText(f);
    var a := DigitChar(f / 10);
    assert f == 10 * (f / 10) + f % 10;
    assert [a][..0] == [];
    assert DigitsValue([a]) == DigitValue(a) == f / 10;
    if f % 10 == 0 {
      assert t == [a];
      assert (f / 10) as real / 10.0 == f as real / 100.0;
    } else {
      assert t[..1] == [a];
      assert DigitsValue(t) == 10 * DigitsValue(t[..1]) + DigitValue(t[1]);
      assert DigitsValue(t) == f;
      assert Pow10(2) == 100;
    }
  }

  lemma HundredthsSplit(n: nat)
    ensures (n / 100) as real + (n % 100) as real / 100.0 == n as real / 100.0
  {
    assert n == 100 * (n / 100) + n % 100;
    assert n as real == 100.0 * (n / 100) as real + (n % 100) as real;
  }

  lemma MagnitudeValue(n: nat)
    ensures ParseUnsigned(Magnitude(n)) == Some(n as real / 100.0)
  {
    var q := n / 100;
    var f := n % 100;
    var whole := NatText(q);
    NatTextValue(q);
    HundredthsSplit(n);
    if f == 0 {
      assert Magnitude(n) == whole;
      ParseDigits(whole);
    } else {
      var t := FractionText(f);
      assert Magnitude(n) == whole + "." + t;
      FractionValue(f);
      ParseDigitsWithFraction(whole, t);
      assert DecimalFraction(t) == f as real / 100.0;
    }
  }

  /** Parsing the printed number gives the number back: NumText loses nothing. */
  lemma NumTextRoundTrip(c: int)
    ensures ParseDecimal(NumText(c)) == Some(c as real / 100.0)
  {
    if c < 0 {
      NegativeRoundTrip(-c);
      assert NumText(c) == "-" + Magnitude(-c);
    } else {
      MagnitudeValue(c);
      ParseUnsignedStart(Magnitude(c));
    }
  }

  lemma NegativeRoundTrip(n: nat)
    ensures ParseDecimal("-" + Magnitude(n)) == Some(-(n as real / 100.0))
  {
    MagnitudeValue(n);
    ParseNegative(Magnitude(n));
  }

  // ---------------------------------------------------------------------
  // The lines of the file
  // ---------------------------------------------------------------------

  const Headers: seq<string> := ["Booking ID", "Cancellation Probability (%)", "Risk Level", "Confidence (%)"]

  /** The four cells of one prediction's line. */
  function RowFields(p: BatchPrediction): seq<string> {
    [IntText(p.bookingId), NumText(p.cancellationProbability), p.riskLevel, NumText(p.confidence)]
  }

  function RowLine(p: BatchPrediction): string {
    Join(RowFields(p), ',')
  }

  function RowLines(predictions: seq<BatchPrediction>): (lines: seq<string>)
    ensures |lines| == |predictions|
  {
    seq(|predictions|, k requires 0 <= k < |predictions| => RowLine(predictions[k]))
  }

  /** A statistic's line: its title, a comma, the number and a percent sign. */
  function PercentLine(title: string, c: int): string {
    title + "," + NumText(c) + "%"
  }

  /**
   * Line k of the block after the predictions: a blank line, the title, the
   * total, the four statistics, a blank line and the distribution's title.
   */
  function StatisticsLine(r: BatchResult, k: nat): string
    requires k < 9
  {
    var st := r.statistics;
    if k == 0 then ""
    else if k == 1 then "Summary Statistics"
    else if k == 2 then "Total Bookings," + IntText(r.totalBookings)
    else if k == 3 then PercentLine("Average Probability", st.averageProbability)
    else if k == 4 then PercentLine("Median Probability", st.medianProbability)
    else if k == 5 then PercentLine("Min Probability", st.minProbability)
    else if k == 6 then PercentLine("Max Probability", st.maxProbability)
    else if k == 7 then ""
    else "Risk Distribution"
  }

  function StatisticsLines(r: BatchResult): (lines: seq<string>)
    ensures |lines| == 9
  {
    seq(9, k requires 0 <= k < 9 => StatisticsLine(r, k))
  }

  /** The entries of the risk distribution in the order the report lists its keys. */
  function Entries(d: BatchDistribution): seq<(string, int)> {
    [("Low Risk", d.low), ("Medium Risk", d.medium), ("High Risk", d.high), ("Very High Risk", d.veryHigh)]
  }

  function EntryLine(e: (string, int)): string {
    e.0 + "," + IntText(e.1)
  }

  function DistributionLines(d: BatchDistribution): (lines: seq<string>)
    ensures |lines| == 4
  {
    var entries := Entries(d);
    seq(|entries|, k requires 0 <= k < |entries| => EntryLine(entries[k]))
  }

  /** Every line of the file, in order. */
  function CsvLines(r: BatchResult): seq<string> {
    [Join(Headers, ',')] + RowLines(r.predictions) + StatisticsLines(r)
    + DistributionLines(r.statistics.riskDistribution)
  }

  /** Lines each followed by a newline. */
  function Terminated(lines: seq<string>): string {
    if |lines| == 0 then "" else lines[0] + "\n" + Terminated(lines[1..])
  }

  /** The text of the downloaded file. */
  function CsvText(r: BatchResult): string {
    Terminated(CsvLines(r))
  }

  lemma {:induction false} TerminatedAppend(lines: seq<string>, line: string)
    ensures Terminated(lines + [line]) == Terminated(lines) + line + "\n"
  {
    if |lines| > 0 {
      assert (lines + [line])[1..] == lines[1..] + [line];
      TerminatedAppend(lines[1..], line);
    }
  }

  /** Terminating one more line of a list appends that line and its newline. */
  lemma TerminatedPrefix(lines: seq<string>, i: nat)
    requires i < |lines|
    ensures Terminated(lines[..i + 1]) == Terminated(lines[..i]) + lines[i] + "\n"
  {
    assert lines[..i + 1] == lines[..i] + [lines[i]];
    TerminatedAppend(lines[..i], lines[i]);
  }

  lemma {:induction false} TerminatedConcat(a: seq<string>, b: seq<string>)
    ensures Terminated(a + b) == Terminated(a) + Terminated(b)
  {
    if |a| > 0 {
      assert (a + b)[1..] == a[1..] + b;
      TerminatedConcat(a[1..], b);
    } else {
      assert a + b == b;
    }
  }

  /** Newline-terminated lines are the lines joined by newlines, with an empty last piece. */
  lemma {:induction false} TerminatedIsJoin(lines: seq<string>)
    ensures Terminated(lines) == Join(lines + [""], '\n')
  {
    if |lines| > 0 {
      assert (lines + [""])[1..] == lines[1..] + [""];
      TerminatedIsJoin(lines[1..]);
    }
  }

  // ---------------------------------------------------------------------
  // The download
  // ---------------------------------------------------------------------

  /** One line per prediction, each its cells joined by commas. */
  method RowsText(predictions: seq<BatchPrediction>) returns (text: string)
    ensures text == Terminated(RowLines(predictions))
  {
    var rows := seq(|predictions|, k requires 0 <= k < |predictions| => RowFields(predictions[k]));
    ghost var lines := RowLines(predictions);
    text := "";
    var i := 0;
    while i < |rows|
      invariant 0 <= i <= |rows|
      invariant text == Terminated(lines[..i])
    {
      var line := Join(rows[i], ',');
      assert line == lines[i];
      TerminatedPrefix(lines, i);
      text := text + line + "\n";
      i := i + 1;
    }
    assert lines[..i] == lines;
  }

  /**
   * The statistics block, one append per line: a blank line, the title, the
   * total, the four probabilities, a blank line and the distribution title.
   */
  method StatisticsText(r: BatchResult) returns (text: string)
    ensures text == Terminated(StatisticsLines(r))
  {
    text := "";
    assert StatisticsLines(r)[..0] == [];
    StatisticsStep(r, 0, text);
    text := text + StatisticsLine(r, 0) + "\n";
    StatisticsStep(r, 1, text);
    text := text + StatisticsLine(r, 1) + "\n";
    StatisticsStep(r, 2, text);
    text := text + StatisticsLine(r, 2) + "\n";
    StatisticsStep(r, 3, text);
    text := text + StatisticsLine(r, 3) + "\n";
    StatisticsStep(r, 4, text);
    text := text + StatisticsLine(r, 4) + "\n";
    StatisticsStep(r, 5, text);
    text := text + StatisticsLine(r, 5) + "\n";
    StatisticsStep(r, 6, text);
    text := text + StatisticsLine(r, 6) + "\n";
    StatisticsStep(r, 7, text);
    text := text + StatisticsLine(r, 7) + "\n";
    StatisticsStep(r, 8, text);
    text := text + StatisticsLine(r, 8) + "\n";
    assert StatisticsLines(r)[..9] == StatisticsLines(r);
  }

  /** Appending line k to the text of the lines before it gives the text of the first k + 1 lines. */
  lemma StatisticsStep(r: BatchResult, k: nat, text: string)
    requires k < 9 && text == Terminated(StatisticsLines(r)[..k])
    ensures text + StatisticsLine(r, k) + "\n" == Terminated(StatisticsLines(r)[..k + 1])
  {
    TerminatedPrefix(StatisticsLines(r), k);
  }

  /** One line per risk-distribution entry, in key order. */
  method DistributionText(d: BatchDistribution) returns (text: string)
    ensures text == Terminated(DistributionLines(d))
  {
    var entries := Entries(d);
    ghost var lines := DistributionLines(d);
    text := "";
    var e := 0;
    while e < |entries|
      invariant 0 <= e <= |entries|
      invariant text == Terminated(lines[..e])
    {
      var (level, count) := entries[e];
      var line := level + "," + IntText(count);
      assert line == lines[e];
      TerminatedPrefix(lines, e);
      text := text + line + "\n";
      e := e + 1;
    }
    assert lines[..e] == lines;
  }

  /**
   * The page's CSV assembly: nothing without a result; otherwise the header,
   * the predictions' lines, the statistics block and the distribution, each
   * line followed by a newline.
   */
  method DownloadBatchResults(batchResult: Option<BatchResult>) returns (csvContent: Option<string>)
    ensures batchResult.None? <==> csvContent.None?
    ensures batchResult.Some? ==> csvContent == Some(CsvText(batchResult.value))
  {
    if batchResult.None? {
      return None;
    }
    var r := batchResult.value;
    var csv := Join(Headers, ',') + "\n";
    var rows := RowsText(r.predictions);
    csv := csv + rows;
    var statistics := StatisticsText(r);
    csv := csv + statistics;
    var distribution := DistributionText(r.statistics.riskDistribution);
    csv := csv + distribution;

    var header := [Join(Headers, ',')];
    var a := RowLines(r.predictions);
    var b := StatisticsLines(r);
    var c := DistributionLines(r.statistics.riskDistribution);
    assert Terminated(header) == Join(Headers, ',') + "\n";
    TerminatedConcat(header, a);
    TerminatedConcat(header + a, b);
    TerminatedConcat(header + a + b, c);
    csvContent := Some(csv);
  }

  // ---------------------------------------------------------------------
  // What the file holds
  // ---------------------------------------------------------------------

  lemma NumTextAvoids(c: int)
    ensures '\n' !in NumText(c) && ',' !in NumText(c)
  {
    var s := NumText(c);
    assert forall i :: 0 <= i < |s| ==> NumeralChar(s[i]);
  }

  lemma IntTextAvoids(i: int)
    ensures '\n' !in IntText(i) && ',' !in IntText(i)
  {
    var s := IntText(i);
    assert AllDigits(NatText(if i < 0 then -i else i));
    assert forall k :: 0 <= k < |s| ==> IsDigit(s[k]) || s[k] == '-';
  }

  /**
   * Splitting a prediction's line at its commas gives its four cells back, in
   * order, as long as the risk label holds no comma.
   */
  lemma RowLineFields(p: BatchPrediction)
    requires ',' !in p.riskLevel
    ensures Split(RowLine(p), ',') == [IntText(p.bookingId), NumText(p.cancellationProbability), p.riskLevel, NumText(p.confidence)]
  {
    IntTextAvoids(p.bookingId);
    NumTextAvoids(p.cancellationProbability);
    NumTextAvoids(p.confidence);
    SplitJoin(RowFields(p), ',');
  }

  lemma HeaderLineAvoids()
    ensures '\n' !in Join(Headers, ',')
  {
    assert '\n' !in Headers[0] && '\n' !in Headers[1];
    assert '\n' !in Headers[2] && '\n' !in Headers[3];
    JoinAvoids(Headers, ',', '\n');
  }

  lemma RowLinesAvoidNewline(predictions: seq<BatchPrediction>)
    requires forall k :: 0 <= k < |predictions| ==> '\n' !in predictions[k].riskLevel
    ensures forall line :: line in RowLines(predictions) ==> '\n' !in line
  {
    forall k | 0 <= k < |predictions|
      ensures '\n' !in RowLine(predictions[k])
    {
      var p := predictions[k];
      IntTextAvoids(p.bookingId);
      NumTextAvoids(p.cancellationProbability);
      NumTextAvoids(p.confidence);
      JoinAvoids(RowFields(p), ',', '\n');
    }
  }

  /** A statistic's line holds no newline. */
  lemma PercentLineAvoids(title: string, c: int)
    requires '\n' !in title
    ensures '\n' !in PercentLine(title, c)
  {
    NumTextAvoids(c);
  }

  lemma StatisticsLineAvoids(r: BatchResult, k: nat)
    requires k < 9
    ensures '\n' !in StatisticsLine(r, k)
  {
    var st := r.statistics;
    if k == 2 {
      IntTextAvoids(r.totalBookings);
    } else if k == 3 {
      PercentLineAvoids("Average Probability", st.averageProbability);
    } else if k == 4 {
      PercentLineAvoids("Median Probability", st.medianProbability);
    } else if k == 5 {
      PercentLineAvoids("Min Probability", st.minProbability);
    } else if k == 6 {
      PercentLineAvoids("Max Probability", st.maxProbability);
    }
  }

  lemma StatisticsLinesAvoidNewline(r: BatchResult)
    ensures forall line :: line in StatisticsLines(r) ==> '\n' !in line
  {
    var lines := StatisticsLines(r);
    forall k | 0 <= k < 9
      ensures '\n' !in lines[k]
    {
      StatisticsLineAvoids(r, k);
    }
  }

  lemma DistributionLinesAvoidNewline(d: BatchDistribution)
    ensures forall line :: line in DistributionLines(d) ==> '\n' !in line
  {
    var entries := Entries(d);
    var lines := DistributionLines(d);
    forall k | 0 <= k < 4
      ensures '\n' !in lines[k]
    {
      EntryLabelAvoids(d, k);
      EntryLineAvoids(entries[k]);
    }
  }

  lemma EntryLabelAvoids(d: BatchDistribution, k: nat)
    requires k < 4
    ensures '\n' !in Entries(d)[k].0
  {
  }

  lemma EntryLineAvoids(e: (string, int))
    requires '\n' !in e.0
    ensures '\n' !in EntryLine(e)
  {
    IntTextAvoids(e.1);
    assert EntryLine(e) == e.0 + "," + IntText(e.1);
  }

  /**
   * Read back line by line, the file is exactly its lines and an empty piece
   * after the final newline, as long as no risk label holds a newline.
   */
  lemma CsvLayout(r: BatchResult)
    requires forall k :: 0 <= k < |r.predictions| ==> '\n' !in r.predictions[k].riskLevel
    ensures Split(CsvText(r), '\n') == CsvLines(r) + [""]
    ensures |Split(CsvText(r), '\n')| == |r.predictions| + 15
  {
    var lines := CsvLines(r);
    RowLinesAvoidNewline(r.predictions);
    StatisticsLinesAvoidNewline(r);
    DistributionLinesAvoidNewline(r.statistics.riskDistribution);
    HeaderLineAvoids();
    assert forall i :: 0 <= i < |lines + [""]| ==> '\n' !in (lines + [""])[i] by {
      assert forall i :: 0 <= i < |lines| ==> lines[i] in lines;
    }
    TerminatedIsJoin(lines);
    SplitJoin(lines + [""], '\n');
  }

  lemma HeaderLineFirst(r: BatchResult)
    ensures |CsvLines(r)| == |r.predictions| + 14
    ensures CsvLines(r)[0] == Join(Headers, ',')
  {
  }

  /** Where the parts of a four-part concatenation sit in it. */
  lemma PartsAt<T>(h: seq<T>, a: seq<T>, b: seq<T>, c: seq<T>)
    ensures forall k :: 0 <= k < |a| ==> (h + a + b + c)[|h| + k] == a[k]
    ensures forall k :: 0 <= k < |b| ==> (h + a + b + c)[|h| + |a| + k] == b[k]
    ensures forall k :: 0 <= k < |c| ==> (h + a + b + c)[|h| + |a| + |b| + k] == c[k]
  {
  }

  lemma RowLinesAt(r: BatchResult)
    ensures forall k :: 0 <= k < |r.predictions| ==> CsvLines(r)[k + 1] == RowLine(r.predictions[k])
  {
    var h := [Join(Headers, ',')];
    var rows := RowLines(r.predictions);
    var block := StatisticsLines(r);
    var entries := DistributionLines(r.statistics.riskDistribution);
    assert CsvLines(r) == h + rows + block + entries;
    PartsAt(h, rows, block, entries);
    assert |h| == 1;
    forall k | 0 <= k < |r.predictions|
      ensures CsvLines(r)[k + 1] == RowLine(r.predictions[k])
    {
      assert CsvLines(r)[|h| + k] == rows[k];
    }
  }

  lemma StatisticsLinesAt(r: BatchResult)
    ensures forall j :: 0 <= j < 9 ==> CsvLines(r)[|r.predictions| + 1 + j] == StatisticsLine(r, j)
  {
    var h := [Join(Headers, ',')];
    var rows := RowLines(r.predictions);
    var block := StatisticsLines(r);
    var entries := DistributionLines(r.statistics.riskDistribution);
    assert CsvLines(r) == h + rows + block + entries;
    PartsAt(h, rows, block, entries);
  }

  lemma DistributionLinesAt(r: BatchResult)
    ensures var n := |r.predictions|;
      var d := r.statistics.riskDistribution;
      && CsvLines(r)[n + 10] == "Low Risk" + "," + IntText(d.low)
      && CsvLines(r)[n + 11] == "Medium Risk" + "," + IntText(d.medium)
      && CsvLines(r)[n + 12] == "High Risk" + "," + IntText(d.high)
      && CsvLines(r)[n + 13] == "Very High Risk" + "," + IntText(d.veryHigh)
  {
    var h := [Join(Headers, ',')];
    var rows := RowLines(r.predictions);
    var block := StatisticsLines(r);
    var entries := DistributionLines(r.statistics.riskDistribution);
    assert CsvLines(r) == h + rows + block + entries;
    PartsAt(h, rows, block, entries);
    var base := |r.predictions| + 10;
    assert CsvLines(r)[base] == entries[0];
    assert CsvLines(r)[base + 1] == entries[1];
    assert CsvLines(r)[base + 2] == entries[2];
    assert CsvLines(r)[base + 3] == entries[3];
  }

  /**
   * The lines in order: the four-column header, one line per prediction in
   * prediction order, the nine lines of the statistics block, and one line
   * per risk-distribution entry, Low to Very High.
   */
  lemma CsvLinesOrder(r: BatchResult)
    ensures var lines := CsvLines(r);
      var n := |r.predictions|;
      var d := r.statistics.riskDistribution;
      && |lines| == n + 14
      && lines[0] == Join(Headers, ',')
      && (forall k :: 0 <= k < n ==> lines[k + 1] == RowLine(r.predictions[k]))
      && (forall j :: 0 <= j < 9 ==> lines[n + 1 + j] == StatisticsLine(r, j))
      && lines[n + 10] == "Low Risk" + "," + IntText(d.low)
      && lines[n + 11] == "Medium Risk" + "," + IntText(d.medium)
      && lines[n + 12] == "High Risk" + "," + IntText(d.high)
      && lines[n + 13] == "Very High Risk" + "," + IntText(d.veryHigh)
  {
    HeaderLineFirst(r);
    RowLinesAt(r);
    StatisticsLinesAt(r);
    DistributionLinesAt(r);
  }
}
