/**
 * preprocess_data: add the expected columns a file lacks, coerce the numeric
 * columns to numbers, and fill every missing cell of the expected columns -
 * numeric ones with the column's median (or a fixed default), categorical ones
 * with a most frequent value (or a fixed default).
 */
module Preprocess {
  import opened Wrappers
  import opened Text
  import opened Stats
  import opened Frames

  const ExpectedColumns: seq<string> := [
    "lead_time", "arrival_month", "stay_duration", "adults", "children",
    "deposit_type", "previous_cancellations", "previous_bookings",
    "special_requests", "booking_changes", "market_segment", "room_type", "meal_plan"]

  const NumericColumns: seq<string> := [
    "lead_time", "stay_duration", "adults", "children",
    "previous_cancellations", "previous_bookings", "special_requests", "booking_changes"]

  const CategoricalColumns: seq<string> := [
    "arrival_month", "deposit_type", "market_segment", "room_type", "meal_plan"]

  /** The two fill passes. */
  datatype Kind = Numeric | Categorical

  /** The fill of a numeric column none of whose cells is a number. */
  function NumericDefault(name: string): (v: real) {
    if name == "lead_time" then 30.0
    else if name == "stay_duration" then 2.0
    else if name == "adults" then 2.0
    else 0.0
  }

  /** The fill of a categorical column all of whose cells are missing. */
  function CategoricalDefault(name: string): (v: string) {
    if name == "arrival_month" then "july"
    else if name == "deposit_type" then "no_deposit"
    else if name == "market_segment" then "online_ta"
    else if name == "room_type" then "standard"
    else if name == "meal_plan" then "bb"
    else "unknown"
  }

  // ---------------------------------------------------------------------
  // One column
  // ---------------------------------------------------------------------

  /** pd.to_numeric(errors='coerce') on one cell: numbers stay, text that parses becomes its number, anything else is missing. */
  function Coerce(c: Cell): (r: Cell)
    ensures r.Missing? || r.Num?
    ensures c.Num? ==> r == c
    ensures c.Missing? ==> r == Missing
    ensures c.Text? ==> (r.Num? <==> ParseDecimal(c.text).Some?)
    ensures c.Text? && r.Num? ==> ParseDecimal(c.text) == Some(r.value)
  {
    match c
    case Missing => Missing
    case Num(_) => c
    case Text(s) =>
      match ParseDecimal(s)
      case Some(v) => Num(v)
      case None => Missing
  }

  function Coerced(cells: seq<Cell>): (r: seq<Cell>)
    ensures |r| == |cells|
    ensures forall i :: 0 <= i < |cells| ==> r[i] == Coerce(cells[i])
  {
    seq(|cells|, i requires 0 <= i < |cells| => Coerce(cells[i]))
  }

  /** The numbers of a column, in order; missing and text cells are skipped. */
  function Numbers(cells: seq<Cell>): (xs: seq<real>)
    ensures forall x :: x in xs ==> Num(x) in cells
    ensures |xs| == 0 <==> forall i :: 0 <= i < |cells| ==> !cells[i].Num?
  {
    if |cells| == 0 then []
    else
      var rest := Numbers(cells[1..]);
      assert forall c :: c in cells[1..] ==> c in cells;
      assert forall i :: 1 <= i < |cells| ==> cells[i] == cells[1..][i - 1];
      (if cells[0].Num? then [cells[0].value] else []) + rest
  }

  /** Series.dropna(): the present cells, in order. */
  function Present(cells: seq<Cell>): (xs: seq<Cell>)
    ensures forall c :: c in xs <==> c in cells && c != Missing
    ensures |xs| == 0 <==> forall i :: 0 <= i < |cells| ==> cells[i] == Missing
  {
    if |cells| == 0 then []
    else
      var rest := Present(cells[1..]);
      assert forall c :: c in cells <==> c == cells[0] || c in cells[1..];
      assert forall i :: 1 <= i < |cells| ==> cells[i] == cells[1..][i - 1];
      (if cells[0] != Missing then [cells[0]] else []) + rest
  }

  /** What a numeric column's missing cells become: the median of its numbers, or the default when it has none. */
  function NumericFill(name: string, cells: seq<Cell>): real {
    var xs := Numbers(cells);
    if |xs| > 0 then Median(xs) else NumericDefault(name)
  }

  /** What a categorical column's missing cells become: a most frequent present value, or the default when there is none. */
  function CategoricalFill(name: string, cells: seq<Cell>): Cell {
    var xs := Present(cells);
    if |xs| > 0 then Mode(xs) else Text(CategoricalDefault(name))
  }

  /** The column one step of a pass leaves behind. */
  function FillColumn(kind: Kind, name: string, cells: seq<Cell>): (r: seq<Cell>)
    ensures |r| == |cells|
  {
    match kind
    case Numeric =>
      var coerced := Coerced(cells);
      Filled(coerced, Num(NumericFill(name, coerced)))
    case Categorical =>
      Filled(cells, CategoricalFill(name, cells))
  }

  /**
   * A numeric column after its step: each cell that is or parses as a number
   * keeps that number, every other cell holds the fill, and all cells are numbers.
   */
  lemma NumericColumnFilled(name: string, cells: seq<Cell>)
    ensures var r := FillColumn(Numeric, name, cells);
      forall i :: 0 <= i < |cells| ==>
        && r[i].Num?
        && (Coerce(cells[i]).Num? ==> r[i] == Coerce(cells[i]))
        && (!Coerce(cells[i]).Num? ==> r[i] == Num(NumericFill(name, Coerced(cells))))
  {
  }

  /**
   * The numeric fill: the median of the column's numbers, which lies between
   * their least and greatest; the column's default when it holds no number.
   */
  lemma NumericFillValue(name: string, cells: seq<Cell>)
    ensures var xs := Numbers(cells);
      && (|xs| == 0 ==> NumericFill(name, cells) == NumericDefault(name))
      && (|xs| > 0 ==>
            NumericFill(name, cells) == Median(xs) && Min(xs) <= NumericFill(name, cells) <= Max(xs))
  {
    var xs := Numbers(cells);
    if |xs| > 0 {
      MedianBounds(xs);
    }
  }

  /** A categorical column after its step: present cells stay, missing ones hold the fill, none is missing. */
  lemma CategoricalColumnFilled(name: string, cells: seq<Cell>)
    ensures var r := FillColumn(Categorical, name, cells);
      forall i :: 0 <= i < |cells| ==>
        && r[i] != Missing
        && (cells[i] != Missing ==> r[i] == cells[i])
        && (cells[i] == Missing ==> r[i] == CategoricalFill(name, cells))
  {
    var v := CategoricalFill(name, cells);
    var xs := Present(cells);
    if |xs| > 0 {
      assert Mode(xs) in xs;
    }
  }

  /**
   * The categorical fill: a present value of the column that no other value
   * outnumbers; the column's default text when every cell is missing.
   */
  lemma CategoricalFillValue(name: string, cells: seq<Cell>)
    ensures var xs := Present(cells);
      var v := CategoricalFill(name, cells);
      && (|xs| == 0 ==> v == Text(CategoricalDefault(name)))
      && (|xs| > 0 ==>
            v in cells && v != Missing && forall c :: c in xs ==> multiset(xs)[c] <= multiset(xs)[v])
  {
  }

  // ---------------------------------------------------------------------
  // The three passes over the frame
  // ---------------------------------------------------------------------

  /** The first pass: append, in order, a blank column for each name the frame lacks. */
  function AddColumns(t: Table, names: seq<string>): (r: Table)
    requires WellFormed(t)
    ensures WellFormed(r) && r.height == t.height
    ensures forall c :: c in t.columns ==> c in r.columns && r.columns[c] == t.columns[c]
    ensures forall c :: c in names ==> c in r.columns
    ensures forall c :: c in r.columns ==> c in t.columns || (c in names && r.columns[c] == Blank(t.height))
  {
    if |names| == 0 then t
    else
      var before := AddColumns(t, names[..|names| - 1]);
      var name := names[|names| - 1];
      assert forall c :: c in names ==> c in names[..|names| - 1] || c == name;
      assert forall c :: c in names[..|names| - 1] ==> c in names;
      if name in before.columns then before else WithBlankColumn(before, name)
  }

  /** A numeric or categorical pass: the step of its kind for each listed column the frame has. */
  function FillSteps(kind: Kind, t: Table, names: seq<string>): (r: Table)
    requires WellFormed(t)
    ensures WellFormed(r) && r.header == t.header && r.height == t.height
    ensures r.columns.Keys == t.columns.Keys
  {
    if |names| == 0 then t
    else
      var before := FillSteps(kind, t, names[..|names| - 1]);
      var name := names[|names| - 1];
      if name in before.columns then WithColumn(before, name, FillColumn(kind, name, before.columns[name]))
      else before
  }

  /** preprocess_data as a function of the frame it receives. */
  function Preprocessed(t: Table): (r: Table)
    requires WellFormed(t)
    ensures WellFormed(r) && r.height == t.height
  {
    FillSteps(Categorical, FillSteps(Numeric, AddColumns(t, ExpectedColumns), NumericColumns), CategoricalColumns)
  }

  /** A column as the passes find it: the file's own, or the blank one the first pass adds. */
  function Original(t: Table, name: string): (cells: seq<Cell>)
    requires WellFormed(t)
    ensures |cells| == t.height
  {
    if name in t.columns then t.columns[name] else Blank(t.height)
  }

  /** The names of a list the frame lacks, in list order. */
  function Absent(keys: set<string>, names: seq<string>): seq<string> {
    if |names| == 0 then []
    else Absent(keys, names[..|names| - 1]) + (if names[|names| - 1] in keys then [] else [names[|names| - 1]])
  }

  /** The first pass keeps the frame's columns in place and appends the absent names in list order. */
  lemma {:induction false} AddColumnsHeader(t: Table, names: seq<string>)
    requires WellFormed(t) && Distinct(names)
    ensures AddColumns(t, names).header == t.header + Absent(t.columns.Keys, names)
  {
    if |names| > 0 {
      var prefix := names[..|names| - 1];
      var name := names[|names| - 1];
      assert Distinct(prefix);
      AddColumnsHeader(t, prefix);
      var before := AddColumns(t, prefix);
      var added: seq<string> := if name in t.columns then [] else [name];
      assert name !in prefix;
      assert name in before.columns <==> name in t.columns;
      AddColumnsLast(t, names);
      Concat3(t.header, Absent(t.columns.Keys, prefix), added);
    }
  }

  /** The first pass over a non-empty list appends the last name to the header exactly when the earlier names left it absent. */
  lemma AddColumnsLast(t: Table, names: seq<string>)
    requires WellFormed(t) && |names| > 0
    ensures var before := AddColumns(t, names[..|names| - 1]);
      var name := names[|names| - 1];
      AddColumns(t, names).header == before.header + (if name in before.columns then [] else [name])
  {
  }

  lemma Concat3<T>(a: seq<T>, b: seq<T>, c: seq<T>)
    ensures a + b + c == a + (b + c)
  {
  }

  /** A pass over distinct names applies its step to each listed column and leaves the others alone. */
  lemma {:induction false} FillStepsEffect(kind: Kind, t: Table, names: seq<string>)
    requires WellFormed(t) && Distinct(names)
    ensures var r := FillSteps(kind, t, names);
      forall c :: c in t.columns ==>
        r.columns[c] == (if c in names then FillColumn(kind, c, t.columns[c]) else t.columns[c])
  {
    if |names| > 0 {
      var prefix := names[..|names| - 1];
      var name := names[|names| - 1];
      assert Distinct(prefix);
      FillStepsEffect(kind, t, prefix);
      assert name !in prefix;
      assert forall c :: c in names <==> c in prefix || c == name;
    }
  }

  lemma ColumnListsDistinct()
    ensures Distinct(ExpectedColumns) && Distinct(NumericColumns) && Distinct(CategoricalColumns)
    ensures forall c :: c in ExpectedColumns <==> c in NumericColumns || c in CategoricalColumns
    ensures forall c :: c in NumericColumns ==> c !in CategoricalColumns
  {
  }

  /** After the first pass every expected column is there, as the file had it or blank. */
  lemma AddedColumns(t: Table)
    requires WellFormed(t)
    ensures var added := AddColumns(t, ExpectedColumns);
      && (forall c :: c in added.columns <==> c in t.columns || c in ExpectedColumns)
      && (forall c :: c in ExpectedColumns ==> added.columns[c] == Original(t, c))
  {
  }

  /**
   * After preprocessing the frame has its own columns and the expected ones;
   * each numeric column is its original after the numeric step, each
   * categorical column its original after the categorical step, and every
   * other column is untouched.
   */
  lemma PreprocessedColumns(t: Table)
    requires WellFormed(t)
    ensures var r := Preprocessed(t);
      && (forall c :: c in r.columns <==> c in t.columns || c in ExpectedColumns)
      && (forall c :: c in t.columns && c !in ExpectedColumns ==> r.columns[c] == t.columns[c])
      && (forall c :: c in NumericColumns ==> r.columns[c] == FillColumn(Numeric, c, Original(t, c)))
      && (forall c :: c in CategoricalColumns ==> r.columns[c] == FillColumn(Categorical, c, Original(t, c)))
  {
    ColumnListsDistinct();
    var added := AddColumns(t, ExpectedColumns);
    AddedColumns(t);
    var numeric := FillSteps(Numeric, added, NumericColumns);
    FillStepsEffect(Numeric, added, NumericColumns);
    var r := FillSteps(Categorical, numeric, CategoricalColumns);
    FillStepsEffect(Categorical, numeric, CategoricalColumns);
    forall c | c in NumericColumns
      ensures r.columns[c] == FillColumn(Numeric, c, Original(t, c))
    {
      assert c !in CategoricalColumns && c in ExpectedColumns;
    }
    forall c | c in CategoricalColumns
      ensures r.columns[c] == FillColumn(Categorical, c, Original(t, c))
    {
      assert c !in NumericColumns && c in ExpectedColumns;
    }
    forall c | c in t.columns && c !in ExpectedColumns
      ensures r.columns[c] == t.columns[c]
    {
      assert c !in CategoricalColumns && c !in NumericColumns;
    }
  }

  /** A column a step of the kind leaves as it is: no missing cell, and only numbers for the numeric kind. */
  predicate ColumnSettled(kind: Kind, cells: seq<Cell>) {
    && (forall i :: 0 <= i < |cells| ==> cells[i] != Missing)
    && (kind == Numeric ==> forall i :: 0 <= i < |cells| ==> cells[i].Num?)
  }

  /** Every cell of every expected column is filled after preprocessing, and every numeric column holds only numbers. */
  lemma PreprocessedComplete(t: Table)
    requires WellFormed(t)
    ensures var r := Preprocessed(t);
      && (forall c :: c in ExpectedColumns ==> c in r.columns)
      && (forall c, i :: c in ExpectedColumns && 0 <= i < r.height ==> r.columns[c][i] != Missing)
      && (forall c, i :: c in NumericColumns && 0 <= i < r.height ==> r.columns[c][i].Num?)
  {
    PreprocessedColumns(t);
    FilledColumnsComplete(t, Preprocessed(t));
  }

  /** A frame whose expected columns are the originals after their steps has them complete. */
  lemma FilledColumnsComplete(t: Table, r: Table)
    requires WellFormed(t) && WellFormed(r) && r.height == t.height
    requires forall c :: c in ExpectedColumns ==> c in r.columns
    requires forall c :: c in NumericColumns ==> r.columns[c] == FillColumn(Numeric, c, Original(t, c))
    requires forall c :: c in CategoricalColumns ==> r.columns[c] == FillColumn(Categorical, c, Original(t, c))
    ensures forall c, i :: c in ExpectedColumns && 0 <= i < r.height ==> r.columns[c][i] != Missing
    ensures forall c, i :: c in NumericColumns && 0 <= i < r.height ==> r.columns[c][i].Num?
  {
    ColumnListsDistinct();
    forall c | c in NumericColumns
      ensures ColumnSettled(Numeric, r.columns[c])
    {
      NumericColumnFilled(c, Original(t, c));
    }
    forall c | c in CategoricalColumns
      ensures ColumnSettled(Categorical, r.columns[c])
    {
      CategoricalColumnFilled(c, Original(t, c));
    }
  }

  /** So the missing counts after preprocessing name none of the expected columns. */
  lemma PreprocessedNoMissingExpected(t: Table)
    requires WellFormed(t)
    ensures forall c :: c in ExpectedColumns ==> c !in MissingCounts(Preprocessed(t))
  {
    var r := Preprocessed(t);
    PreprocessedComplete(t);
    forall c | c in ExpectedColumns
      ensures CountMissing(r.columns[c]) == 0
    {
      NoMissingNoCount(r.columns[c]);
    }
  }

  /** Columns outside the expected ones keep their missing counts. */
  lemma PreprocessedOtherCounts(t: Table)
    requires WellFormed(t)
    ensures forall c :: c in MissingCounts(t) && c !in ExpectedColumns ==>
      c in MissingCounts(Preprocessed(t)) && MissingCounts(Preprocessed(t))[c] == MissingCounts(t)[c]
  {
    PreprocessedColumns(t);
  }

  lemma {:induction false} DistinctSetSize(a: seq<string>)
    requires Distinct(a)
    ensures |set x | x in a| == |a|
  {
    if |a| > 0 {
      var rest := a[1..];
      assert Distinct(rest);
      DistinctSetSize(rest);
      assert (set x | x in a) == (set x | x in rest) + {a[0]};
      assert a[0] !in rest;
    }
  }

  /** The frame reports at least the thirteen expected columns. */
  lemma PreprocessedWidth(t: Table)
    requires WellFormed(t)
    ensures |Preprocessed(t).header| >= |ExpectedColumns| == 13
  {
    var r := Preprocessed(t);
    PreprocessedColumns(t);
    ColumnListsDistinct();
    DistinctSetSize(ExpectedColumns);
    DistinctSetSize(r.header);
    var e := set x | x in ExpectedColumns;
    var h := set x | x in r.header;
    assert e <= h;
    SubsetSize(e, h);
  }

  lemma {:induction false} SubsetSize(a: set<string>, b: set<string>)
    requires a <= b
    ensures |a| <= |b|
  {
    if a != {} {
      var x :| x in a;
      SubsetSize(a - {x}, b - {x});
    }
  }

  lemma {:induction false} AddColumnsNoop(t: Table, names: seq<string>)
    requires WellFormed(t)
    requires forall c :: c in names ==> c in t.columns
    ensures AddColumns(t, names) == t
  {
    if |names| > 0 {
      assert forall c :: c in names[..|names| - 1] ==> c in names;
      AddColumnsNoop(t, names[..|names| - 1]);
    }
  }

  lemma FillColumnNoop(kind: Kind, name: string, cells: seq<Cell>)
    requires ColumnSettled(kind, cells)
    ensures FillColumn(kind, name, cells) == cells
  {
  }

  lemma {:induction false} FillStepsNoop(kind: Kind, t: Table, names: seq<string>)
    requires WellFormed(t)
    requires forall c :: c in names && c in t.columns ==> ColumnSettled(kind, t.columns[c])
    ensures FillSteps(kind, t, names) == t
  {
    if |names| > 0 {
      var prefix := names[..|names| - 1];
      var name := names[|names| - 1];
      assert forall c :: c in prefix ==> c in names;
      FillStepsNoop(kind, t, prefix);
      if name in t.columns {
        FillColumnNoop(kind, name, t.columns[name]);
        SameColumn(t, name);
      }
    }
  }

  /** Writing a column's own cells back leaves the frame as it was. */
  lemma SameColumn(t: Table, name: string)
    requires WellFormed(t) && name in t.columns
    ensures WithColumn(t, name, t.columns[name]) == t
  {
    assert t.columns[name := t.columns[name]] == t.columns;
  }

  /** Preprocessing a preprocessed frame changes nothing. */
  lemma PreprocessedIdempotent(t: Table)
    requires WellFormed(t)
    ensures Preprocessed(Preprocessed(t)) == Preprocessed(t)
  {
    var r := Preprocessed(t);
    PreprocessedComplete(t);
    ColumnListsDistinct();
    AddColumnsNoop(r, ExpectedColumns);
    forall c | c in NumericColumns && c in r.columns
      ensures ColumnSettled(Numeric, r.columns[c])
    {
      assert c in ExpectedColumns;
    }
    FillStepsNoop(Numeric, r, NumericColumns);
    forall c | c in CategoricalColumns && c in r.columns
      ensures ColumnSettled(Categorical, r.columns[c])
    {
      assert c in ExpectedColumns;
    }
    FillStepsNoop(Categorical, r, CategoricalColumns);
  }

  // ---------------------------------------------------------------------
  // The in-place procedure
  // ---------------------------------------------------------------------

  /** The first pass: df[col] = np.nan for each expected column the frame lacks. */
  method AddExpectedColumns(df: DataFrame)
    requires df.Valid()
    modifies df
    ensures df.Valid()
    ensures df.View() == AddColumns(old(df.View()), ExpectedColumns)
  {
    ghost var t := df.View();
    var names := ExpectedColumns;
    for i := 0 to |names|
      invariant df.Valid()
      invariant df.View() == AddColumns(t, names[..i])
    {
      var col := names[i];
      AddColumnsPrefix(t, names, i);
      if col !in df.columns {
        df.AddBlankColumn(col);
      }
    }
    assert names[..|names|] == names;
  }

  /** The first pass over one more name adds that name's column unless the frame already has it. */
  lemma AddColumnsPrefix(t: Table, names: seq<string>, i: nat)
    requires WellFormed(t) && i < |names|
    ensures var before := AddColumns(t, names[..i]);
      AddColumns(t, names[..i + 1])
        == if names[i] in before.columns then before else WithBlankColumn(before, names[i])
  {
    assert names[..i + 1][..i] == names[..i];
  }

  /** A pass over one more name applies that name's step when the frame has the column. */
  lemma FillStepsPrefix(kind: Kind, t: Table, names: seq<string>, i: nat)
    requires WellFormed(t) && i < |names|
    ensures var before := FillSteps(kind, t, names[..i]);
      FillSteps(kind, t, names[..i + 1])
        == if names[i] in before.columns then WithColumn(before, names[i], FillColumn(kind, names[i], before.columns[names[i]])) else before
  {
    assert names[..i + 1][..i] == names[..i];
  }

  /** One numeric step: coerce the column, then fill it with its median or the default. */
  method FillNumericColumn(df: DataFrame, col: string)
    requires df.Valid() && col in df.columns
    modifies df
    ensures df.Valid()
    ensures df.View() == WithColumn(old(df.View()), col, FillColumn(Numeric, col, old(df.columns[col])))
  {
    ghost var t := df.View();
    var coerced := Coerced(df.columns[col]);
    df.Assign(col, coerced);
    var numbers := Numbers(coerced);
    var fill := if |numbers| == 0 then Num(NumericDefault(col)) else Num(Median(numbers));
    assert fill == Num(NumericFill(col, coerced));
    df.FillNa(col, fill);
    ReplaceColumnTwice(t, col, coerced, Filled(coerced, fill));
  }

  /** One categorical step: fill the column with its first mode, or the default when it has no present value. */
  method FillCategoricalColumn(df: DataFrame, col: string)
    requires df.Valid() && col in df.columns
    modifies df
    ensures df.Valid()
    ensures df.View() == WithColumn(old(df.View()), col, FillColumn(Categorical, col, old(df.columns[col])))
  {
    var present := Present(df.columns[col]);
    if |present| > 0 {
      df.FillNa(col, Mode(present));
    } else {
      df.FillNa(col, Text(CategoricalDefault(col)));
    }
  }

  /** The second and third passes: the step of a kind for each listed column the frame has. */
  method FillPass(df: DataFrame, kind: Kind, names: seq<string>)
    requires df.Valid()
    modifies df
    ensures df.Valid()
    ensures df.View() == FillSteps(kind, old(df.View()), names)
  {
    ghost var t := df.View();
    for i := 0 to |names|
      invariant df.Valid()
      invariant df.View() == FillSteps(kind, t, names[..i])
    {
      var col := names[i];
      FillStepsPrefix(kind, t, names, i);
      if col in df.columns {
        if kind == Numeric {
          FillNumericColumn(df, col);
        } else {
          FillCategoricalColumn(df, col);
        }
      }
    }
    assert names[..|names|] == names;
  }

  /** preprocess_data(df): the three passes, mutating the frame in place. */
  method PreprocessData(df: DataFrame)
    requires df.Valid()
    modifies df
    ensures df.Valid()
    ensures df.View() == Preprocessed(old(df.View()))
  {
    AddExpectedColumns(df);
    FillPass(df, Numeric, NumericColumns);
    FillPass(df, Categorical, CategoricalColumns);
  }
}
