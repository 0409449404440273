/**
 * The part of a pandas DataFrame the batch pipeline relies on: named
 * columns of equal length whose cells are missing (NaN), numbers or text.
 * A Table is the frame as a value; DataFrame is the object the pipeline
 * mutates in place.
 */
module Frames {

  /** A cell: NaN, a number, or a piece of text. */
  datatype Cell = Missing | Num(value: real) | Text(text: string)

  /** The frame as a value: column order, column contents, number of rows. */
  datatype Table = Table(header: seq<string>, columns: map<string, seq<Cell>>, height: nat)

  predicate Distinct(names: seq<string>) {
    forall i, j :: 0 <= i < j < |names| ==> names[i] != names[j]
  }

  /** Every header name is a column, every column is named once, and all columns have height cells. */
  ghost predicate WellFormed(t: Table) {
    && Distinct(t.header)
    && (forall name :: name in t.header <==> name in t.columns)
    && (forall name :: name in t.columns ==> |t.columns[name]| == t.height)
  }

  /** df.empty: no rows or no columns. */
  predicate Empty(t: Table) {
    t.height == 0 || |t.header| == 0
  }

  /** A column of n missing cells. */
  function Blank(n: nat): (cells: seq<Cell>)
    ensures |cells| == n
    ensures forall i :: 0 <= i < n ==> cells[i] == Missing
  {
    seq(n, i => Missing)
  }

  /** df[name] = np.nan for a new name: the column is appended at the end and holds only missing cells. */
  function WithBlankColumn(t: Table, name: string): (r: Table)
    requires WellFormed(t) && name !in t.columns
    ensures WellFormed(r)
    ensures r.header == t.header + [name] && r.height == t.height
    ensures r.columns[name] == Blank(t.height)
    ensures forall c :: c in t.columns ==> c in r.columns && r.columns[c] == t.columns[c]
  {
    Table(t.header + [name], t.columns[name := Blank(t.height)], t.height)
  }

  /** df[name] = cells for an existing name: only that column changes. */
  function WithColumn(t: Table, name: string, cells: seq<Cell>): (r: Table)
    requires WellFormed(t) && name in t.columns && |cells| == t.height
    ensures WellFormed(r)
    ensures r.header == t.header && r.height == t.height && r.columns.Keys == t.columns.Keys
    ensures r.columns[name] == cells
    ensures forall c :: c in t.columns && c != name ==> r.columns[c] == t.columns[c]
  {
    Table(t.header, t.columns[name := cells], t.height)
  }

  /** Writing a column twice is writing it once with the second contents. */
  lemma ReplaceColumnTwice(t: Table, name: string, first: seq<Cell>, second: seq<Cell>)
    requires WellFormed(t) && name in t.columns && |first| == |second| == t.height
    ensures WithColumn(WithColumn(t, name, first), name, second) == WithColumn(t, name, second)
  {
    assert t.columns[name := first][name := second] == t.columns[name := second];
  }

  /** Series.fillna(v): every missing cell becomes v, the others stay. */
  function Filled(cells: seq<Cell>, v: Cell): (r: seq<Cell>)
    ensures |r| == |cells|
    ensures forall i :: 0 <= i < |cells| ==> r[i] == (if cells[i] == Missing then v else cells[i])
  {
    seq(|cells|, i requires 0 <= i < |cells| => if cells[i] == Missing then v else cells[i])
  }

  /** Series.isnull().sum(): the number of missing cells. */
  function CountMissing(cells: seq<Cell>): nat {
    multiset(cells)[Missing]
  }

  /** df.isnull().sum() with zero counts dropped: column name to number of missing cells. */
  function MissingCounts(t: Table): (counts: map<string, nat>)
    ensures forall c :: c in counts <==> c in t.columns && CountMissing(t.columns[c]) > 0
    ensures forall c :: c in counts ==> counts[c] == CountMissing(t.columns[c])
  {
    map c | c in t.columns && CountMissing(t.columns[c]) > 0 :: CountMissing(t.columns[c])
  }

  /** Row i as df.iterrows() yields it: column name to cell. */
  function RowAt(t: Table, i: nat): (row: map<string, Cell>)
    requires WellFormed(t) && i < t.height
    ensures row.Keys == t.columns.Keys
    ensures forall c :: c in row ==> row[c] == t.columns[c][i]
  {
    map c | c in t.columns :: t.columns[c][i]
  }

  /** A column without missing cells has nothing to count. */
  lemma NoMissingNoCount(cells: seq<Cell>)
    requires forall i :: 0 <= i < |cells| ==> cells[i] != Missing
    ensures CountMissing(cells) == 0
  {
    assert Missing !in cells;
  }

  /** Filling with a present value leaves no missing cell. */
  lemma FilledComplete(cells: seq<Cell>, v: Cell)
    requires v != Missing
    ensures CountMissing(Filled(cells, v)) == 0
  {
    NoMissingNoCount(Filled(cells, v));
  }

  /**
   * The frame the pipeline works on. Each method is one pandas statement of
   * the pipeline and changes the column it names, nothing else.
   */
  class DataFrame {
    var header: seq<string>
    var columns: map<string, seq<Cell>>
    var height: nat

    function View(): Table
      reads this
    {
      Table(header, columns, height)
    }

    ghost predicate Valid()
      reads this
    {
      WellFormed(View())
    }

    constructor (t: Table)
      requires WellFormed(t)
      ensures View() == t && Valid()
    {
      header := t.header;
      columns := t.columns;
      height := t.height;
    }

    /** df[name] = np.nan, for a name the frame lacks. */
    method AddBlankColumn(name: string)
      requires Valid() && name !in columns
      modifies this
      ensures Valid()
      ensures View() == WithBlankColumn(old(View()), name)
    {
      header := header + [name];
      columns := columns[name := Blank(height)];
    }

    /** df[name] = cells, for a name the frame has. */
    method Assign(name: string, cells: seq<Cell>)
      requires Valid() && name in columns && |cells| == height
      modifies this
      ensures Valid()
      ensures View() == WithColumn(old(View()), name, cells)
    {
      columns := columns[name := cells];
    }

    /** df[name].fillna(v, inplace=True). */
    method FillNa(name: string, v: Cell)
      requires Valid() && name in columns
      modifies this
      ensures Valid()
      ensures View() == WithColumn(old(View()), name, Filled(old(columns[name]), v))
    {
      columns := columns[name := Filled(columns[name], v)];
    }
  }
}
