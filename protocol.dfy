/** Data model of one battery-protocol step and of the control-law table the
    step compiler produces from it.

    A step descriptor is a dictionary with the keys StepType, StepMode,
    StepValue, Limits and Ends; the table is a numpy object array of one or
    two rows, each laid out as
      [setpoint, voltage limit, capacity-fraction limit, current limit,
       time limit, mode code]
    where an absent limit is Python's None. */
module Protocol {

  datatype Option<+T> = None | Some(value: T)

  datatype Result<+T> = Ok(value: T) | Err(error: Error)

  /** The Python exceptions the handlers can raise, one per cause. */
  datatype Error =
    | NotANumber         // float(...) raised ValueError
    | NotText            // StepValue of a 'Chg Func' step has no split method
    | MissingExpression  // StepValue.split('|')[1] raised IndexError
    | ExpressionSyntax   // parse_expr raised on the substituted expression
    | NotComparable      // f.subs(t, 0.001) >= 0 raised TypeError
    | FallbackCalled     // the invalid-StepType lambda was given the step

  /** A value stored in the descriptor: a number or a text. */
  datatype Value = Num(x: real) | Text(s: string)

  /** One cell of the object table. A Func cell is the unevaluated sympy
      expression parse_expr(expr) + y0 that a 'Chg Func' step stores as its
      setpoint. */
  datatype Cell = NoneCell | Number(x: real) | Func(expr: string, y0: real)

  type Row = seq<Cell>
  type Table = seq<Row>

  /** Column indices of a control-law row. */
  const Width: nat := 6
  const Setpoint: nat := 0
  const VoltageLimit: nat := 1
  const CapFracLimit: nat := 2
  const CurrentLimit: nat := 3
  const TimeLimit: nat := 4
  const ModeCode: nat := 5

  /** A row with the given setpoint and mode code and every limit None:
      the shape np.array([setpoint, None, None, None, None, mode]). */
  function ControlRow(setpoint: Cell, mode: real): (r: Row)
    ensures |r| == Width && r[Setpoint] == setpoint && r[ModeCode] == Number(mode)
    ensures r[VoltageLimit] == r[CapFracLimit] == r[CurrentLimit] == r[TimeLimit] == NoneCell
  {
    [setpoint, NoneCell, NoneCell, NoneCell, NoneCell, Number(mode)]
  }

  /** Assigning the setpoint or the mode code of a control row. */
  lemma ControlRowUpdate(setpoint: Cell, mode: real, c: Cell, m: real)
    ensures ControlRow(setpoint, mode)[Setpoint := c] == ControlRow(c, mode)
    ensures ControlRow(setpoint, mode)[ModeCode := Number(m)] == ControlRow(setpoint, m)
  {
    assert ControlRow(setpoint, mode)[Setpoint := c] == [c] + ControlRow(setpoint, mode)[1..];
  }

  predicate WellShaped(t: Table) {
    forall i | 0 <= i < |t| :: |t[i]| == Width
  }

  /** A step descriptor. Limits is None or a dictionary; Ends is handed to
      process_ends untouched. */
  datatype Step = Step(
    stepType: string,
    stepMode: string,
    stepValue: Value,
    limits: Option<map<string, Value>>,
    ends: map<string, Value>)

  /** What sympy reports when the parsed expression is substituted at a time:
      a syntax error while parsing, a value that is not a real number (so
      comparing it with 0 raises), or a real number. */
  datatype Evaluation = SyntaxError | NotReal | RealValue(v: real)

  /** The collaborators the step compiler calls but does not define:
      - processCurrent: mpet.utils.process_current(value, charge_type);
      - processEnds: mpet.utils.process_ends(ends, table, charge_type), which
        returns the finished table and the next step index;
      - parseFloat: Python's float() applied to a text;
      - evaluate: sympy's parse_expr(text) substituted at t = time. */
  datatype Externals = Externals(
    processCurrent: (Value, nat) -> real,
    processEnds: (map<string, Value>, Table, nat) -> (Table, int),
    parseFloat: string -> Option<real>,
    evaluate: (string, real) -> Evaluation)

  /** Python's float(v): a number is kept, a text is parsed. */
  function Float(v: Value, ext: Externals): Option<real> {
    match v
    case Num(x) => Some(x)
    case Text(s) => ext.parseFloat(s)
  }

  /** Direction of a constant-current / constant-voltage step. */
  datatype Direction = Charge | Discharge

  /** The mode-code taxonomy of the table: 1 CC charge, 2 CC discharge,
      3 CV charge, 4 CV discharge. */
  function CcCode(d: Direction): (c: real)
    ensures c == 1.0 || c == 2.0
    ensures c == 1.0 <==> d == Charge
  {
    match d
    case Charge => 1.0
    case Discharge => 2.0
  }

  function CvCode(d: Direction): (c: real)
    ensures c == 3.0 || c == 4.0
    ensures c == 3.0 <==> d == Charge
  {
    CcCode(d) + 2.0
  }

  /** The charge_type flag handed to process_current and process_ends. */
  function ChargeType(d: Direction): (ct: nat)
    ensures ct == 1 <==> d == Charge
    ensures ct == 0 <==> d == Discharge
  {
    match d
    case Charge => 1
    case Discharge => 0
  }
}
