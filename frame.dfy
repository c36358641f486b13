/** The tabular input of the preprocessing scripts: a row maps each column
    name of the frame to its cell, so a column is present in the frame exactly
    when it is a key of the row. Cells hold numbers or text; the conversions
    that can raise (`int(...)`, `float(...)`) return `None` for a cell they
    cannot convert, which makes the row's mapping fail. */
module Frame {
  import opened Wrappers
  import Text

  datatype Cell = Num(x: real) | Str(s: string)

  type Row = map<string, Cell>

  /** `int(x)` of a number: truncation toward zero. */
  function Trunc(x: real): (n: int)
    ensures x >= 0.0 ==> n as real <= x < n as real + 1.0
    ensures x < 0.0 ==> n as real - 1.0 < x <= n as real
  {
    if x >= 0.0 then x.Floor else -((-x).Floor)
  }

  /** `float(cell)`: a number as it is, a text only when it is a plain run of decimal digits. */
  function AsReal(c: Cell): (r: Option<real>)
    ensures c.Num? ==> r == Some(c.x)
    ensures c.Str? ==> (r.Some? <==> |c.s| > 0 && Text.AllDigits(c.s))
  {
    match c
    case Num(x) => Some(x)
    case Str(s) => if |s| > 0 && Text.AllDigits(s) then Some(Text.ParseDecimal(s) as real) else None
  }

  /** `int(cell)`: a number truncated toward zero, a text only when it is a plain run of decimal digits. */
  function AsInt(c: Cell): (r: Option<int>)
    ensures c.Num? ==> r == Some(Trunc(c.x))
    ensures c.Str? ==> (r.Some? <==> |c.s| > 0 && Text.AllDigits(c.s))
  {
    match c
    case Num(x) => Some(Trunc(x))
    case Str(s) => if |s| > 0 && Text.AllDigits(s) then Some(Text.ParseDecimal(s)) else None
  }

  /** `cell == v` for a number `v`: a text never equals a number. */
  predicate IsNumber(c: Cell, v: real) {
    c.Num? && c.x == v
  }

  /** `candidates[i]` is a column of `row` and no earlier candidate is. */
  ghost predicate FirstAt(row: Row, candidates: seq<string>, i: int) {
    0 <= i < |candidates| && candidates[i] in row && forall j :: 0 <= j < i ==> candidates[j] !in row
  }

  /** The first of `candidates` that is a column of `row`. */
  function FirstPresent(row: Row, candidates: seq<string>): (c: Option<string>)
    ensures c.None? <==> forall i :: 0 <= i < |candidates| ==> candidates[i] !in row
    ensures c.Some? ==> exists i :: FirstAt(row, candidates, i) && candidates[i] == c.value
  {
    if candidates == [] then None
    else if candidates[0] in row then
      assert FirstAt(row, candidates, 0);
      Some(candidates[0])
    else
      var rest := FirstPresent(row, candidates[1..]);
      assert rest.Some? ==> exists i :: FirstAt(row, candidates, i) && candidates[i] == rest.value by {
        if rest.Some? {
          var i :| FirstAt(row, candidates[1..], i) && candidates[1..][i] == rest.value;
          assert forall j :: 1 <= j < i + 1 ==> candidates[j] == candidates[1..][j - 1];
          assert FirstAt(row, candidates, i + 1);
        }
      }
      rest
  }
}
