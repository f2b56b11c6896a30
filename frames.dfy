/** A column-oriented model of the pandas DataFrame operations the core
    uses: reading a column (`df[name]`, a KeyError when it is absent),
    dropping a column (`errors='ignore'`), filling missing values from a
    per-column dictionary (`fillna`), replacing a column, and dropping the
    rows whose value in one column is missing (`dropna(subset=...)`).
    Cells are untyped: missing (NaN), text, or a number. */
module Frames {
  import opened Common

  datatype Cell = Missing | Text(s: string) | Num(x: real)

  /** `str(value)` / `astype(str)`: NaN becomes "nan", text is itself.
      Python's rendering of floats is not modelled and is supplied by the
      caller as `showNum`. */
  function CellText(c: Cell, showNum: real -> string): string {
    match c
    case Missing => "nan"
    case Text(s) => s
    case Num(x) => showNum(x)
  }

  /** Column names in order, one value sequence per column, and a row count. */
  datatype Table = Table(names: seq<string>, cols: seq<seq<Cell>>, height: nat)

  /** A table as read from a CSV file: one sequence per name, all of the
      same length, and no repeated name. */
  predicate WellFormed(t: Table) {
    && |t.cols| == |t.names|
    && Distinct(t.names)
    && forall i :: 0 <= i < |t.cols| ==> |t.cols[i]| == t.height
  }

  /** Position of the first occurrence of `n`. */
  function IndexOf(names: seq<string>, n: string): (r: Option<nat>)
    ensures r.None? <==> n !in names
    ensures r.Some? ==> r.value < |names| && names[r.value] == n
  {
    if names == [] then None
    else if names[0] == n then Some(0)
    else match IndexOf(names[1..], n)
      case None => None
      case Some(k) => Some(k + 1)
  }

  lemma {:induction false} IndexOfDistinct(names: seq<string>, k: nat)
    requires Distinct(names) && k < |names|
    ensures IndexOf(names, names[k]) == Some(k)
  {
    if k > 0 {
      assert names[1..][k - 1] == names[k];
      IndexOfDistinct(names[1..], k - 1);
    }
  }

  /** `df[n]`: the column's values, or None where pandas raises KeyError. */
  function Column(t: Table, n: string): (r: Option<seq<Cell>>)
    requires WellFormed(t)
    ensures r.None? <==> n !in t.names
    ensures r.Some? ==> |r.value| == t.height
    ensures forall k :: 0 <= k < |t.names| && t.names[k] == n ==> r == Some(t.cols[k])
  {
    match IndexOf(t.names, n)
    case None => None
    case Some(k) =>
      assert forall j :: 0 <= j < |t.names| && t.names[j] == n ==> j == k;
      Some(t.cols[k])
  }

  /** The table without its column at position `i`. */
  function RemoveAt(t: Table, i: nat): (r: Table)
    requires WellFormed(t) && i < |t.names|
    ensures |r.names| == |r.cols| == |t.names| - 1 && r.height == t.height
    ensures forall j :: 0 <= j < |r.names| ==> r.names[j] == t.names[if j < i then j else j + 1]
    ensures forall j :: 0 <= j < |r.cols| ==> r.cols[j] == t.cols[if j < i then j else j + 1]
  {
    Table(t.names[..i] + t.names[i + 1..], t.cols[..i] + t.cols[i + 1..], t.height)
  }

  lemma RemoveAtWellFormed(t: Table, i: nat)
    requires WellFormed(t) && i < |t.names|
    ensures WellFormed(RemoveAt(t, i))
    ensures IsSubsequence(RemoveAt(t, i).names, t.names)
  {
    var r := RemoveAt(t, i);
    forall j, k | 0 <= j < k < |r.names| ensures r.names[j] != r.names[k] {
      var j', k' := if j < i then j else j + 1, if k < i then k else k + 1;
      assert r.names[j] == t.names[j'] && r.names[k] == t.names[k'] && j' < k';
    }
    SubsequenceDeleteAt(t.names, i);
    assert r.names == t.names[..i] + t.names[i + 1..];
  }

  /** Removing the column at position `i` removes exactly its name. */
  lemma RemoveAtNames(t: Table, i: nat)
    requires WellFormed(t) && i < |t.names|
    ensures forall m :: m in RemoveAt(t, i).names <==> m in t.names && m != t.names[i]
  {
    var r := RemoveAt(t, i);
    forall m | m in t.names && m != t.names[i] ensures m in r.names {
      var k :| 0 <= k < |t.names| && t.names[k] == m;
      assert r.names[if k < i then k else k - 1] == m;
    }
    forall m | m in r.names ensures m in t.names && m != t.names[i] {
      var j :| 0 <= j < |r.names| && r.names[j] == m;
      var j' := if j < i then j else j + 1;
      assert t.names[j'] == m && j' != i;
    }
  }

  /** Removing the column at position `i` keeps every other column's values. */
  lemma RemoveAtKeepsOthers(t: Table, i: nat)
    requires WellFormed(t) && i < |t.names|
    requires WellFormed(RemoveAt(t, i))
    ensures forall m :: m != t.names[i] ==> Column(RemoveAt(t, i), m) == Column(t, m)
  {
    var r := RemoveAt(t, i);
    RemoveAtNames(t, i);
    forall m | m != t.names[i] ensures Column(r, m) == Column(t, m) {
      if m in r.names {
        var j :| 0 <= j < |r.names| && r.names[j] == m;
        assert t.names[if j < i then j else j + 1] == m;
      }
    }
  }

  /** `df.drop(columns=[n], errors='ignore')`: removes the column when it is
      there and is the identity otherwise; the other columns keep their
      order and their values. */
  function DropColumn(t: Table, n: string): (r: Table)
    requires WellFormed(t)
    ensures WellFormed(r) && r.height == t.height
    ensures n !in r.names
    ensures forall m :: m in r.names <==> m in t.names && m != n
    ensures IsSubsequence(r.names, t.names)
    ensures forall m :: m != n ==> Column(r, m) == Column(t, m)
    ensures n !in t.names ==> r == t
  {
    match IndexOf(t.names, n)
    case None =>
      SubsequenceRefl(t.names);
      t
    case Some(i) =>
      RemoveAtWellFormed(t, i);
      RemoveAtNames(t, i);
      RemoveAtKeepsOthers(t, i);
      RemoveAt(t, i)
  }

  /** `fillna(v)` on one column: missing cells become `v`, the others stay. */
  function FillColumn(col: seq<Cell>, v: Cell): (r: seq<Cell>)
    ensures |r| == |col|
    ensures forall i :: 0 <= i < |col| && col[i] != Missing ==> r[i] == col[i]
    ensures forall i :: 0 <= i < |col| && col[i] == Missing ==> r[i] == v
  {
    if col == [] then [] else [if col[0] == Missing then v else col[0]] + FillColumn(col[1..], v)
  }

  /** `fillna({name: value, ...})`: every listed column that exists is
      filled with its value; keys without a column are ignored. */
  function FillNaTable(t: Table, values: map<string, Cell>): (r: Table)
    requires WellFormed(t)
    ensures WellFormed(r) && r.names == t.names && r.height == t.height
    ensures forall m :: m in t.names ==>
      Column(r, m) == Some(if m in values then FillColumn(Column(t, m).value, values[m]) else Column(t, m).value)
  {
    var cols := seq(|t.cols|, i requires 0 <= i < |t.cols| =>
      if t.names[i] in values then FillColumn(t.cols[i], values[t.names[i]]) else t.cols[i]);
    var r := Table(t.names, cols, t.height);
    assert WellFormed(r);
    r
  }

  /** `df[n] = col` for a column that exists: only that column changes. */
  function SetColumn(t: Table, n: string, col: seq<Cell>): (r: Table)
    requires WellFormed(t) && n in t.names && |col| == t.height
    ensures WellFormed(r) && r.names == t.names && r.height == t.height
    ensures Column(r, n) == Some(col)
    ensures forall m :: m != n ==> Column(r, m) == Column(t, m)
  {
    var k := IndexOf(t.names, n).value;
    var r := Table(t.names, t.cols[k := col], t.height);
    assert WellFormed(r);
    r
  }

  function CountTrue(mask: seq<bool>): nat {
    if mask == [] then 0 else (if mask[0] then 1 else 0) + CountTrue(mask[1..])
  }

  /** The elements of `s` whose mask entry is true, in order. */
  function Select<T>(s: seq<T>, mask: seq<bool>): (r: seq<T>)
    requires |mask| == |s|
    ensures |r| == CountTrue(mask)
    ensures forall i :: 0 <= i < |r| ==> r[i] in s
  {
    if s == [] then []
    else
      var rest := Select(s[1..], mask[1..]);
      assert forall x :: x in rest ==> x in s;
      if mask[0] then [s[0]] + rest else rest
  }

  /** Selecting with an all-true mask keeps everything. */
  lemma {:induction false} SelectAll<T>(s: seq<T>, mask: seq<bool>)
    requires |mask| == |s| && forall i :: 0 <= i < |mask| ==> mask[i]
    ensures Select(s, mask) == s
  {
    if s != [] {
      SelectAll(s[1..], mask[1..]);
    }
  }

  function Present(col: seq<Cell>): (mask: seq<bool>)
    ensures |mask| == |col|
    ensures forall i :: 0 <= i < |col| ==> (mask[i] <==> col[i] != Missing)
  {
    if col == [] then [] else [col[0] != Missing] + Present(col[1..])
  }

  /** Selecting a column with its own presence mask leaves no missing value. */
  lemma {:induction false} SelectPresentHasNoMissing(col: seq<Cell>)
    ensures forall x :: x in Select(col, Present(col)) ==> x != Missing
  {
    if col != [] {
      SelectPresentHasNoMissing(col[1..]);
      assert Present(col)[1..] == Present(col[1..]);
    }
  }

  /** `dropna(subset=[n])`: keeps, in every column, exactly the rows whose
      value in column `n` is present. */
  function DropMissingRows(t: Table, n: string): (r: Table)
    requires WellFormed(t) && n in t.names
    ensures WellFormed(r) && r.names == t.names
    ensures r.height == CountTrue(Present(Column(t, n).value))
    ensures forall m :: m in t.names ==>
      Column(r, m) == Some(Select(Column(t, m).value, Present(Column(t, n).value)))
  {
    var mask := Present(Column(t, n).value);
    var cols := seq(|t.cols|, i requires 0 <= i < |t.cols| => Select(t.cols[i], mask));
    var r := Table(t.names, cols, CountTrue(mask));
    assert WellFormed(r);
    r
  }

  /** When no value of column `n` is missing, `dropna(subset=[n])` drops nothing. */
  lemma DropMissingRowsNoop(t: Table, n: string)
    requires WellFormed(t) && n in t.names
    requires forall c :: c in Column(t, n).value ==> c != Missing
    ensures DropMissingRows(t, n) == t
  {
    var mask := Present(Column(t, n).value);
    assert forall i :: 0 <= i < |mask| ==> mask[i] by {
      forall i | 0 <= i < |mask| ensures mask[i] {
        assert Column(t, n).value[i] in Column(t, n).value;
      }
    }
    forall i | 0 <= i < |t.cols| ensures Select(t.cols[i], mask) == t.cols[i] {
      SelectAll(t.cols[i], mask);
    }
    SelectAll(Column(t, n).value, mask);
    var r := DropMissingRows(t, n);
    assert r.cols == t.cols;
  }

  /** A pandas DataFrame that the core changes in place.  `View` is its
      value; every mutating method states the new value in terms of the old. */
  class DataFrame {
    var names: seq<string>
    var cols: seq<seq<Cell>>
    var height: nat

    function View(): Table
      reads this
    {
      Table(names, cols, height)
    }

    predicate Valid()
      reads this
    {
      WellFormed(View())
    }

    /** A frame holding a table, as `pd.read_csv` yields one. */
    constructor (t: Table)
      requires WellFormed(t)
      ensures Valid() && View() == t
    {
      names, cols, height := t.names, t.cols, t.height;
    }

    /** `df[n]`. */
    method Get(n: string) returns (r: Option<seq<Cell>>)
      requires Valid()
      ensures r == Column(View(), n)
    {
      r := Column(View(), n);
    }

    /** `df.drop(columns=[n], inplace=True, errors='ignore')`. */
    method DropInPlace(n: string)
      requires Valid()
      modifies this
      ensures Valid() && View() == DropColumn(old(View()), n)
    {
      var t := DropColumn(View(), n);
      names, cols, height := t.names, t.cols, t.height;
    }

    /** `df.fillna(values, inplace=True)`. */
    method FillNaInPlace(values: map<string, Cell>)
      requires Valid()
      modifies this
      ensures Valid() && View() == FillNaTable(old(View()), values)
    {
      var t := FillNaTable(View(), values);
      cols := t.cols;
    }

    /** `df[n] = col` for an existing column `n`. */
    method Assign(n: string, col: seq<Cell>)
      requires Valid() && n in names && |col| == height
      modifies this
      ensures Valid() && View() == SetColumn(old(View()), n, col)
    {
      var t := SetColumn(View(), n, col);
      cols := t.cols;
    }

    /** `df.dropna(subset=[n], inplace=True)` for an existing column `n`. */
    method DropNaInPlace(n: string)
      requires Valid() && n in names
      modifies this
      ensures Valid() && View() == DropMissingRows(old(View()), n)
    {
      var t := DropMissingRows(View(), n);
      cols, height := t.cols, t.height;
    }
  }
}
