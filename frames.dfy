/** The few pandas DataFrame operations the collection layer relies on, on a frame made of
    an index and named columns of cells. Row values are `Value`s; numeric work on them
    (returns, rolling deviations) is outside this model. */
module Frames {
  import opened Scalars

  datatype Column = Column(name: string, cells: seq<Value>)

  /** A DataFrame: an index (named or not) and columns, each holding one cell per index entry. */
  datatype Frame = Frame(indexName: Option<string>, index: seq<Value>, columns: seq<Column>) {

    predicate WellFormed() {
      forall i :: 0 <= i < |columns| ==> |columns[i].cells| == |index|
    }

    function Rows(): nat {
      |index|
    }

    /** `DataFrame.empty`: true when either axis has length zero. */
    predicate IsEmpty() {
      |index| == 0 || |columns| == 0
    }

    predicate Has(name: string) {
      exists i :: 0 <= i < |columns| && columns[i].name == name
    }
  }

  /** Number of columns carrying the label `name` (pandas allows repeated labels). */
  function CountNamed(cs: seq<Column>, name: string): (n: nat)
    ensures n <= |cs|
    ensures n == 0 <==> forall i :: 0 <= i < |cs| ==> cs[i].name != name
  {
    if cs == [] then 0 else (if cs[0].name == name then 1 else 0) + CountNamed(cs[1..], name)
  }

  /** The cells of the one column labelled `name`. */
  function CellsNamed(cs: seq<Column>, name: string): (cells: seq<Value>)
    requires CountNamed(cs, name) == 1
    ensures exists i :: 0 <= i < |cs| && cs[i].name == name && cs[i].cells == cells
  {
    if cs[0].name == name then cs[0].cells else CellsNamed(cs[1..], name)
  }

  /** A label carried by one column only names that column's cells. */
  lemma {:induction false} OnlyColumnNamed(cs: seq<Column>, name: string, k: nat)
    requires k < |cs| && cs[k].name == name
    requires forall i :: 0 <= i < |cs| && i != k ==> cs[i].name != name
    ensures CountNamed(cs, name) == 1 && CellsNamed(cs, name) == cs[k].cells
  {
    if k > 0 {
      OnlyColumnNamed(cs[1..], name, k - 1);
    } else {
      assert CountNamed(cs[1..], name) == 0;
    }
  }

  /** `RangeIndex(n)` */
  function RangeIndex(n: nat): (ix: seq<Value>)
    ensures |ix| == n && forall i :: 0 <= i < n ==> ix[i] == VInt(i)
  {
    seq(n, i => VInt(i))
  }

  function Fill(v: Value, n: nat): (cells: seq<Value>)
    ensures |cells| == n && forall i :: 0 <= i < n ==> cells[i] == v
  {
    seq(n, _ => v)
  }

  /** `df.reset_index()`: the index becomes the first column, labelled with the index's
      name (or 'index', or 'level_0' when 'index' is taken); a label that is already a
      column raises ValueError. The new index is a RangeIndex. */
  function ResetIndexed(f: Frame): (r: Outcome<Frame>)
    ensures r.Ok? ==> r.value.indexName == None && r.value.index == RangeIndex(f.Rows())
    ensures r.Ok? ==> |r.value.columns| == |f.columns| + 1 && r.value.columns[1..] == f.columns
    ensures r.Ok? ==> r.value.columns[0].cells == f.index
    ensures f.indexName.Some? ==> (r.Ok? <==> !f.Has(f.indexName.value))
    ensures f.indexName.Some? && r.Ok? ==> r.value.columns[0].name == f.indexName.value
    ensures f.WellFormed() && r.Ok? ==> r.value.WellFormed()
  {
    var heading :=
      if f.indexName.Some? then f.indexName.value
      else if f.Has("index") then "level_0" else "index";
    if f.Has(heading) then Raised(ValueError)
    else Ok(Frame(None, RangeIndex(|f.index|), [Column(heading, f.index)] + f.columns))
  }

  /** A column not named by the mapping keeps its label. */
  lemma RenamedKeeps(f: Frame, mapping: map<string, string>, c: string)
    requires f.Has(c) && c !in mapping
    ensures Renamed(f, mapping).Has(c)
  {
    var i :| 0 <= i < |f.columns| && f.columns[i].name == c;
    assert Renamed(f, mapping).columns[i].name == c;
  }

  /** `reset_index` keeps every column. */
  lemma ResetKeeps(f: Frame, c: string)
    requires f.Has(c) && ResetIndexed(f).Ok?
    ensures ResetIndexed(f).value.Has(c)
  {
    var i :| 0 <= i < |f.columns| && f.columns[i].name == c;
    assert ResetIndexed(f).value.columns[i + 1] == f.columns[i];
  }

  /** The label a column has after `rename(columns=mapping)`. */
  function RenamedLabel(name: string, mapping: map<string, string>): string {
    if name in mapping then mapping[name] else name
  }

  function RenameColumns(cs: seq<Column>, mapping: map<string, string>): (rs: seq<Column>)
    ensures |rs| == |cs|
    ensures forall i :: 0 <= i < |cs| ==> rs[i] == Column(RenamedLabel(cs[i].name, mapping), cs[i].cells)
  {
    if cs == [] then [] else [Column(RenamedLabel(cs[0].name, mapping), cs[0].cells)] + RenameColumns(cs[1..], mapping)
  }

  /** `df.rename(columns=mapping)`: labels change, cells and index do not. */
  function Renamed(f: Frame, mapping: map<string, string>): (r: Frame)
    ensures r.index == f.index && r.indexName == f.indexName && |r.columns| == |f.columns|
    ensures forall i :: 0 <= i < |f.columns| ==>
      r.columns[i].name == RenamedLabel(f.columns[i].name, mapping) && r.columns[i].cells == f.columns[i].cells
  {
    Frame(f.indexName, f.index, RenameColumns(f.columns, mapping))
  }

  function ReplaceNamed(cs: seq<Column>, name: string, cells: seq<Value>): (rs: seq<Column>)
    ensures |rs| == |cs|
    ensures forall i :: 0 <= i < |cs| ==> rs[i] == if cs[i].name == name then Column(name, cells) else cs[i]
  {
    if cs == [] then [] else [if cs[0].name == name then Column(name, cells) else cs[0]] + ReplaceNamed(cs[1..], name, cells)
  }

  /** `df[name] = cells`: every column labelled `name` takes the cells; with no such
      column a new one is appended at the end. */
  function WithCells(f: Frame, name: string, cells: seq<Value>): (r: Frame)
    ensures r.index == f.index && r.indexName == f.indexName && |r.columns| >= |f.columns|
    ensures r.Has(name)
    ensures forall i :: 0 <= i < |r.columns| && r.columns[i].name == name ==> r.columns[i].cells == cells
    ensures forall i :: 0 <= i < |f.columns| && f.columns[i].name != name ==> r.columns[i] == f.columns[i]
    ensures f.Has(name) ==> |r.columns| == |f.columns|
    ensures !f.Has(name) ==> r.columns == f.columns + [Column(name, cells)]
    ensures f.WellFormed() && |cells| == f.Rows() ==> r.WellFormed()
  {
    if f.Has(name) then
      var cs := ReplaceNamed(f.columns, name, cells);
      var i :| 0 <= i < |f.columns| && f.columns[i].name == name;
      assert cs[i].name == name;
      Frame(f.indexName, f.index, cs)
    else
      var r := Frame(f.indexName, f.index, f.columns + [Column(name, cells)]);
      assert r.columns[|f.columns|].name == name;
      r
  }

  /** Setting one column leaves the cells of every column with another label as they were. */
  lemma WithCellsKeeps(f: Frame, name: string, cells: seq<Value>, other: string, want: seq<Value>)
    requires name != other
    requires forall i :: 0 <= i < |f.columns| && f.columns[i].name == other ==> f.columns[i].cells == want
    ensures var r := WithCells(f, name, cells);
      forall i :: 0 <= i < |r.columns| && r.columns[i].name == other ==> r.columns[i].cells == want
  {
  }

  /** `df[name]` where the result is assigned to a single column: KeyError when there is
      no such column, ValueError when several columns share the label (a frame cannot be
      stored in one column). */
  function SingleColumn(f: Frame, name: string): (r: Outcome<seq<Value>>)
    ensures r.Ok? <==> CountNamed(f.columns, name) == 1
    ensures r == Raised(KeyError) <==> !f.Has(name)
    ensures f.WellFormed() && r.Ok? ==> |r.value| == f.Rows()
  {
    var n := CountNamed(f.columns, name);
    if n == 0 then Raised(KeyError)
    else if n == 1 then Ok(CellsNamed(f.columns, name))
    else Raised(ValueError)
  }

  /** A pandas DataFrame object, for the code that changes a frame in place. */
  class DataFrame {
    var indexName: Option<string>
    var index: seq<Value>
    var columns: seq<Column>

    function Snapshot(): Frame
      reads this
    {
      Frame(indexName, index, columns)
    }

    constructor (f: Frame)
      ensures Snapshot() == f
    {
      indexName, index, columns := f.indexName, f.index, f.columns;
    }

    /** `reset_index(inplace=True)`; on ValueError the frame is untouched. */
    method ResetIndex() returns (raised: Option<Exc>)
      modifies this
      ensures ResetIndexed(old(Snapshot())).Ok? ==> raised == None && Snapshot() == ResetIndexed(old(Snapshot())).value
      ensures ResetIndexed(old(Snapshot())).Raised? ==> raised == Some(ResetIndexed(old(Snapshot())).exc) && Snapshot() == old(Snapshot())
    {
      match ResetIndexed(Snapshot())
      case Ok(g) =>
        indexName, index, columns := g.indexName, g.index, g.columns;
        raised := None;
      case Raised(e) =>
        raised := Some(e);
    }

    /** `rename(columns=mapping, inplace=True)` */
    method Rename(mapping: map<string, string>)
      modifies this
      ensures Snapshot() == Renamed(old(Snapshot()), mapping)
    {
      columns := RenameColumns(columns, mapping);
    }

    /** `df[name] = v` for a scalar v, broadcast to every row. */
    method SetScalar(name: string, v: Value)
      modifies this
      ensures Snapshot() == WithCells(old(Snapshot()), name, Fill(v, |old(index)|))
    {
      var g := WithCells(Snapshot(), name, Fill(v, |index|));
      columns := g.columns;
    }

    /** `df[target] = df[source]`; the frame is untouched when the lookup raises. */
    method CopyColumn(target: string, source: string) returns (raised: Option<Exc>)
      modifies this
      ensures SingleColumn(old(Snapshot()), source).Ok? ==>
        raised == None && Snapshot() == WithCells(old(Snapshot()), target, SingleColumn(old(Snapshot()), source).value)
      ensures SingleColumn(old(Snapshot()), source).Raised? ==>
        raised == Some(SingleColumn(old(Snapshot()), source).exc) && Snapshot() == old(Snapshot())
    {
      match SingleColumn(Snapshot(), source)
      case Ok(cells) =>
        columns := WithCells(Snapshot(), target, cells).columns;
        raised := None;
      case Raised(e) =>
        raised := Some(e);
    }
  }
}
