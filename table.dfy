/** The numpy object array the handlers build: created with one row by
    np.reshape(np.array(row), (1, 6)), grown by np.vstack, changed one cell
    at a time, and read back as a table value (a[..]) when it is handed to
    process_ends. Each element of the array is one row of Width cells. */
module NumpyTable {
  import opened Protocol

  /** The table with cell (i, j) replaced by v. */
  function Assign(t: Table, i: nat, j: nat, v: Cell): (u: Table)
    requires i < |t| && j < |t[i]|
    ensures |u| == |t| && |u[i]| == |t[i]| && u[i][j] == v
    ensures forall k | 0 <= k < |t[i]| && k != j :: u[i][k] == t[i][k]
    ensures forall k | 0 <= k < |t| && k != i :: u[k] == t[k]
  {
    t[i := t[i][j := v]]
  }

  /** Setting the mode code and then the setpoint of the blank row gives a
      control row. */
  lemma FirstRowSet(c: Cell, m: real)
    ensures Assign(Assign([ControlRow(Number(0.0), 0.0)], 0, ModeCode, Number(m)), 0, Setpoint, c) == [ControlRow(c, m)]
  {
    ControlRowUpdate(Number(0.0), 0.0, c, m);
    ControlRowUpdate(Number(0.0), m, c, m);
  }

  /** A transition: a limit cell of the first row is set, and the appended
      blank row becomes the control row with that limit as its setpoint. */
  lemma TransitionSet(first: Row, col: nat, c: Cell, m: real)
    requires |first| == Width && col < Width
    ensures Assign(Assign(Assign([first, ControlRow(Number(0.0), 0.0)], 0, col, c), 1, ModeCode, Number(m)), 1, Setpoint, c)
      == [first[col := c], ControlRow(c, m)]
  {
    ControlRowUpdate(Number(0.0), 0.0, c, m);
    ControlRowUpdate(Number(0.0), m, c, m);
  }

  /** np.reshape(np.array(row), (1, 6)). */
  method NewTable(row: Row) returns (a: array<Row>)
    requires |row| == Width
    ensures fresh(a) && a[..] == [row]
  {
    a := new Row[1](_ => row);
  }

  /** np.vstack((a, np.array(row))): a new array with row appended. */
  method VStack(a: array<Row>, row: Row) returns (b: array<Row>)
    requires WellShaped(a[..]) && |row| == Width
    ensures fresh(b) && b[..] == a[..] + [row]
    ensures WellShaped(b[..])
  {
    b := new Row[a.Length + 1](i requires 0 <= i <= a.Length reads a => if i < a.Length then a[i] else row);
  }

  /** a[i][j] = v: one cell of the array changes. */
  method SetCell(a: array<Row>, i: nat, j: nat, v: Cell)
    requires i < a.Length && j < |a[i]|
    modifies a
    ensures a[..] == Assign(old(a[..]), i, j, v)
    ensures WellShaped(old(a[..])) ==> WellShaped(a[..])
  {
    a[i] := a[i][j := v];
  }
}
