/** The tabular value the handler works on (a pandas DataFrame) and the masking step,
    `produce_obfuscated_data`. */
module Frames {

  /** A loosely typed cell: text, a number, or a missing value. */
  datatype Cell = Text(s: string) | Number(x: real) | Missing

  /** The value every masked cell receives: the five-character literal `'***'`,
      quotes included. */
  const SENTINEL: Cell := Text("'***'")

  datatype Column = Column(name: string, cells: seq<Cell>)

  /** A frame: a row count and an ordered sequence of named columns. */
  datatype Frame = Frame(rows: nat, columns: seq<Column>)

  /** Column names are distinct and every column has one cell per row. */
  predicate WellFormed(f: Frame)
  {
    && (forall i :: 0 <= i < |f.columns| ==> |f.columns[i].cells| == f.rows)
    && (forall i, j :: 0 <= i < j < |f.columns| ==> f.columns[i].name != f.columns[j].name)
  }

  type Table = f: Frame | WellFormed(f) witness Frame(0, [])

  function ColumnNames(t: Frame): (names: set<string>)
    ensures forall n :: n in names <==> exists i :: 0 <= i < |t.columns| && t.columns[i].name == n
  {
    set i | 0 <= i < |t.columns| :: t.columns[i].name
  }

  /** Python's `set(fields).issubset(set(df.columns))`. */
  predicate Covers(t: Frame, fields: seq<string>): (b: bool)
    ensures b <==> forall f :: f in fields ==> f in ColumnNames(t)
  {
    (set f | f in fields) <= ColumnNames(t)
  }

  function FillColumn(c: Column, fields: seq<string>, v: Cell): Column
  {
    if c.name in fields then Column(c.name, seq(|c.cells|, _ => v)) else c
  }

  /** `df[fields] = v` on a frame that already has every column of `fields`: each cell of
      each listed column becomes `v`; everything else stays as it was. */
  function Assign(t: Table, fields: seq<string>, v: Cell): (r: Table)
    requires Covers(t, fields)
    ensures r.rows == t.rows && |r.columns| == |t.columns|
    ensures forall i :: 0 <= i < |t.columns| ==> r.columns[i].name == t.columns[i].name
    ensures forall i :: 0 <= i < |t.columns| && t.columns[i].name !in fields ==>
              r.columns[i] == t.columns[i]
    ensures forall i, k :: 0 <= i < |t.columns| && t.columns[i].name in fields && 0 <= k < t.rows ==>
              r.columns[i].cells[k] == v
  {
    Frame(t.rows, seq(|t.columns|, i requires 0 <= i < |t.columns| => FillColumn(t.columns[i], fields, v)))
  }

  /** The frame `produce_obfuscated_data` returns: the listed columns overwritten with
      the sentinel. */
  function Mask(t: Table, fields: seq<string>): (r: Table)
    requires Covers(t, fields)
    ensures r.rows == t.rows && |r.columns| == |t.columns|
    ensures forall i :: 0 <= i < |t.columns| ==> r.columns[i].name == t.columns[i].name
    ensures forall i :: 0 <= i < |t.columns| && t.columns[i].name !in fields ==>
              r.columns[i] == t.columns[i]
    ensures forall i, k :: 0 <= i < |t.columns| && t.columns[i].name in fields && 0 <= k < t.rows ==>
              r.columns[i].cells[k] == SENTINEL
  {
    Assign(t, fields, SENTINEL)
  }

  /** Masking keeps the column names, so the result still covers the fields. */
  lemma MaskKeepsNames(t: Table, fields: seq<string>)
    requires Covers(t, fields)
    ensures ColumnNames(Mask(t, fields)) == ColumnNames(t)
    ensures Covers(Mask(t, fields), fields)
  {
  }

  /** Masking a masked table with the same fields changes nothing. */
  lemma MaskIdempotent(t: Table, fields: seq<string>)
    requires Covers(t, fields)
    ensures Covers(Mask(t, fields), fields)
    ensures Mask(Mask(t, fields), fields) == Mask(t, fields)
  {
  }

  /** Masking in two passes is masking the fields of both passes at once. */
  lemma MaskTwice(t: Table, first: seq<string>, second: seq<string>)
    requires Covers(t, first) && Covers(t, second)
    ensures Covers(Mask(t, first), second) && Covers(t, first + second)
    ensures Mask(Mask(t, first), second) == Mask(t, first + second)
  {
  }

  /** A pandas DataFrame: an object whose columns are overwritten in place. */
  class DataFrame {
    var rows: nat
    var columns: seq<Column>

    predicate Valid()
      reads this
    {
      WellFormed(Frame(rows, columns))
    }

    /** The table the frame currently holds. */
    function Value(): Table
      reads this
      requires Valid()
    {
      Frame(rows, columns)
    }

    constructor (t: Table)
      ensures Valid() && Value() == t
    {
      rows := t.rows;
      columns := t.columns;
    }

    /** `df.copy()`: a new frame holding the same table. Cells and columns are values,
        so the copy shares nothing that can be changed through it. */
    method Copy() returns (c: DataFrame)
      requires Valid()
      ensures fresh(c) && c.Valid() && c.Value() == Value()
    {
      c := new DataFrame(Value());
    }

    /** `df[fields] = v`: overwrites, column by column, every cell of the listed columns. */
    method AssignColumns(fields: seq<string>, v: Cell)
      requires Valid() && Covers(Value(), fields)
      modifies this
      ensures Valid() && Value() == Assign(old(Value()), fields, v)
    {
      ghost var t := Value();
      var i := 0;
      while i < |columns|
        invariant 0 <= i <= |columns| == |t.columns| && rows == t.rows
        invariant forall k :: 0 <= k < i ==> columns[k] == FillColumn(t.columns[k], fields, v)
        invariant forall k :: i <= k < |columns| ==> columns[k] == t.columns[k]
      {
        if columns[i].name in fields {
          columns := columns[i := Column(columns[i].name, seq(rows, _ => v))];
        }
        i := i + 1;
      }
      assert columns == Assign(t, fields, v).columns;
    }
  }

  /** `produce_obfuscated_data`: copies the frame and masks the copy; the input frame is
      left untouched. */
  method ProduceObfuscatedData(df: DataFrame, fields: seq<string>) returns (newDf: DataFrame)
    requires df.Valid() && Covers(df.Value(), fields)
    ensures fresh(newDf) && newDf.Valid()
    ensures unchanged(df)
    ensures newDf.Value() == Mask(df.Value(), fields)
  {
    newDf := df.Copy();
    newDf.AssignColumns(fields, SENTINEL);
  }
}
