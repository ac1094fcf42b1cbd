/** What each step handler hands to process_ends: the control-law table it
    builds and the charge_type flag. These functions specify the handler
    methods in StepHandlers; the lemmas below state the rules of the table. */
module StepRules {
  import opened Protocol
  import opened Text

  /** The handler StepTypeLogic selects. The fallback is the zero-argument
      lambda that returns its message. */
  datatype Handler =
    | RestHandler
    | ChargeHandler
    | ChgFuncHandler
    | DischrgeHandler
    | InvalidStepType(message: string)

  const InvalidStepTypeMessage: string := "invalid StepType"

  /** StepTypeLogic: look the StepType tag up in the switcher dictionary. */
  function StepTypeLogic(step: Step): (h: Handler)
    ensures h == RestHandler <==> step.stepType == "Rest"
    ensures h == ChargeHandler <==> step.stepType == "Charge"
    ensures h == ChgFuncHandler <==> step.stepType == "Chg Func"
    ensures h == DischrgeHandler <==> step.stepType == "Dischrge"
    ensures h.InvalidStepType? <==> step.stepType !in {"Rest", "Charge", "Chg Func", "Dischrge"}
    ensures h.InvalidStepType? ==> h.message == InvalidStepTypeMessage
  {
    var switcher := map[
      "Rest" := RestHandler,
      "Charge" := ChargeHandler,
      "Chg Func" := ChgFuncHandler,
      "Dischrge" := DischrgeHandler];
    if step.stepType in switcher then switcher[step.stepType]
    else InvalidStepType(InvalidStepTypeMessage)
  }

  /** Limits is not None and has the key. */
  predicate HasLimit(step: Step, key: string) {
    step.limits.Some? && key in step.limits.value
  }

  /** A rest step: constant current 0 with the charge mode code. */
  function RestTable(): (t: Table)
    ensures |t| == 1 && WellShaped(t)
    ensures t[0][Setpoint] == Number(0.0) && t[0][ModeCode] == Number(CcCode(Charge))
    ensures forall j | Setpoint < j < ModeCode :: t[0][j] == NoneCell
  {
    [ControlRow(Number(0.0), 1.0)]
  }

  /** The cell of the first row whose value becomes the second row's
      setpoint: the voltage limit of a CC step, the current limit of a CV
      step. */
  function TransitionColumn(step: Step): nat {
    if step.stepMode == "Current" then VoltageLimit else CurrentLimit
  }

  /** The mode code of the second row: CV after CC, CC after CV. */
  function TransitionCode(d: Direction, step: Step): real {
    if step.stepMode == "Current" then CvCode(d) else CcCode(d)
  }

  /** The table of a Charge (d = Charge) or Dischrge (d = Discharge) step,
      the mirror images of one another. */
  function CcCvTable(d: Direction, step: Step, ext: Externals): (r: Result<Table>)
    ensures r.Ok? ==> 1 <= |r.value| <= 2 && WellShaped(r.value)
    ensures r.Ok? ==>
      r.value[0][ModeCode] ==
        Number(if step.stepMode == "Current" then CcCode(d)
               else if step.stepMode == "Voltage" then CvCode(d) else 0.0)
    ensures r.Ok? && |r.value| == 2 ==>
      r.value[1] == ControlRow(r.value[0][TransitionColumn(step)], TransitionCode(d, step))
    ensures r.Err? ==> r.error == NotANumber
  {
    var ct := ChargeType(d);
    if step.stepMode == "Current" then
      var first := ControlRow(Number(ext.processCurrent(step.stepValue, ct)), CcCode(d));
      if HasLimit(step, "Voltage") then
        match Float(step.limits.value["Voltage"], ext)
        case None => Err(NotANumber)
        case Some(v) => Ok([first[VoltageLimit := Number(v)], ControlRow(Number(v), CvCode(d))])
      else
        Ok([first])
    else if step.stepMode == "Voltage" then
      match Float(step.stepValue, ext)
      case None => Err(NotANumber)
      case Some(v) =>
        var first := ControlRow(Number(v), CvCode(d));
        if HasLimit(step, "Current") then
          var c := Number(ext.processCurrent(step.limits.value["Current"], ct));
          Ok([first[CurrentLimit := c], ControlRow(c, CcCode(d))])
        else
          Ok([first])
    else
      Ok([ControlRow(Number(0.0), 0.0)])
  }

  /** The time at which a custom function is evaluated to classify it. */
  const ClassifyTime: real := 0.001

  /** The table of a 'Chg Func' step whose StepValue is "y0|expression". */
  function ChgFuncTable(step: Step, ext: Externals): (r: Result<Table>)
    ensures r.Ok? ==> |r.value| == 1 && WellShaped(r.value)
    ensures r.Ok? ==>
      var row := r.value[0];
      row[Setpoint].Func? && NoToken(row[Setpoint].expr) &&
      (forall j | Setpoint < j < ModeCode :: row[j] == NoneCell) &&
      (row[ModeCode] == Number(1.0) || row[ModeCode] == Number(-1.0)) &&
      (row[ModeCode] == Number(1.0) <==>
        var e := ext.evaluate(row[Setpoint].expr, ClassifyTime);
        e.RealValue? && e.v + row[Setpoint].y0 >= 0.0)
    ensures r.Ok? ==>
      step.stepValue.Text? &&
      var fields := Split(step.stepValue.s, '|');
      |fields| >= 2 && ext.parseFloat(fields[0]).Some? &&
      r.value[0][Setpoint] == Func(Substitute(fields[1]), ext.parseFloat(fields[0]).value)
    ensures r == Err(NotText) <==> step.stepValue.Num?
    ensures r == Err(NotANumber) <==>
      step.stepValue.Text? && ext.parseFloat(Split(step.stepValue.s, '|')[0]).None?
    ensures r == Err(MissingExpression) <==>
      step.stepValue.Text? && '|' !in step.stepValue.s &&
      ext.parseFloat(Split(step.stepValue.s, '|')[0]).Some?
    ensures r == Err(ExpressionSyntax) <==>
      step.stepValue.Text? &&
      var fields := Split(step.stepValue.s, '|');
      |fields| >= 2 && ext.parseFloat(fields[0]).Some? &&
      ext.evaluate(Substitute(fields[1]), ClassifyTime).SyntaxError?
    ensures r == Err(NotComparable) <==>
      step.stepValue.Text? &&
      var fields := Split(step.stepValue.s, '|');
      |fields| >= 2 && ext.parseFloat(fields[0]).Some? &&
      ext.evaluate(Substitute(fields[1]), ClassifyTime).NotReal?
  {
    match step.stepValue
    case Num(_) => Err(NotText)
    case Text(s) =>
      var fields := Split(s, '|');
      match ext.parseFloat(fields[0])
      case None => Err(NotANumber)
      case Some(y0) =>
        if |fields| < 2 then Err(MissingExpression)
        else
          var text := Substitute(fields[1]);
          SubstituteLeavesNoToken(fields[1]);
          match ext.evaluate(text, ClassifyTime)
          case SyntaxError => Err(ExpressionSyntax)
          case NotReal => Err(NotComparable)
          case RealValue(v) => Ok([ControlRow(Func(text, y0), if v + y0 >= 0.0 then 1.0 else -1.0)])
  }

  /** The table the handler builds before process_ends. */
  function HandlerTable(h: Handler, step: Step, ext: Externals): Result<Table> {
    match h
    case RestHandler => Ok(RestTable())
    case ChargeHandler => CcCvTable(Charge, step, ext)
    case ChgFuncHandler => ChgFuncTable(step, ext)
    case DischrgeHandler => CcCvTable(Discharge, step, ext)
    case InvalidStepType(_) => Err(FallbackCalled)
  }

  /** The charge_type the handler passes to process_ends. */
  function HandlerChargeType(h: Handler): nat {
    if h == DischrgeHandler then ChargeType(Discharge) else ChargeType(Charge)
  }

  /** process_ends applied to a table that was built without error. */
  function Finish(step: Step, ext: Externals, t: Result<Table>, chargeType: nat): Result<(Table, int)> {
    match t
    case Err(e) => Err(e)
    case Ok(table) => Ok(ext.processEnds(step.ends, table, chargeType))
  }

  // ---------------------------------------------------------------------
  // Rules of the table

  /** A step in current mode: the first row is CC with the processed current
      as setpoint; a Voltage key in Limits, and only that, adds a CV row whose
      setpoint is the voltage limit copied from the first row. */
  lemma CurrentModeTable(d: Direction, step: Step, ext: Externals)
    requires step.stepMode == "Current"
    ensures var r := CcCvTable(d, step, ext);
      var current := Number(ext.processCurrent(step.stepValue, ChargeType(d)));
      (r.Ok? <==> !HasLimit(step, "Voltage") || Float(step.limits.value["Voltage"], ext).Some?) &&
      (r.Ok? ==>
        (|r.value| == 2 <==> HasLimit(step, "Voltage")) &&
        (|r.value| == 1 ==> r.value[0] == ControlRow(current, CcCode(d))) &&
        (|r.value| == 2 ==>
          r.value[0] == ControlRow(current, CcCode(d))[VoltageLimit := r.value[1][Setpoint]] &&
          r.value[1] == ControlRow(Number(Float(step.limits.value["Voltage"], ext).value), CvCode(d))))
  {
  }

  /** A step in voltage mode: the first row is CV with float(StepValue) as
      setpoint and no current processing; a Current key in Limits, and only
      that, adds a CC row whose setpoint is the processed current limit
      copied from the first row. */
  lemma VoltageModeTable(d: Direction, step: Step, ext: Externals)
    requires step.stepMode == "Voltage"
    ensures var r := CcCvTable(d, step, ext);
      (r.Ok? <==> Float(step.stepValue, ext).Some?) &&
      (r.Ok? ==>
        var voltage := Number(Float(step.stepValue, ext).value);
        (|r.value| == 2 <==> HasLimit(step, "Current")) &&
        (|r.value| == 1 ==> r.value[0] == ControlRow(voltage, CvCode(d))) &&
        (|r.value| == 2 ==>
          r.value[0] == ControlRow(voltage, CvCode(d))[CurrentLimit := r.value[1][Setpoint]] &&
          r.value[1] == ControlRow(
            Number(ext.processCurrent(step.limits.value["Current"], ChargeType(d))), CcCode(d))))
  {
  }

  /** Any other StepMode raises nothing: the initial row, setpoint 0 and mode
      code 0, goes on to process_ends. */
  lemma OtherModeTable(d: Direction, step: Step, ext: Externals)
    requires step.stepMode != "Current" && step.stepMode != "Voltage"
    ensures CcCvTable(d, step, ext) == Ok([ControlRow(Number(0.0), 0.0)])
  {
  }

  /** In a table of a step with a valid mode, a row's mode code tells its
      control law: 1 or 3 exactly for a charge, 1 or 2 exactly for the
      constant-current row, which is the first row of a current-mode step
      and the second row of a voltage-mode step. */
  lemma ModeCodeMeaning(d: Direction, step: Step, ext: Externals, i: nat)
    requires step.stepMode == "Current" || step.stepMode == "Voltage"
    requires CcCvTable(d, step, ext).Ok? && i < |CcCvTable(d, step, ext).value|
    ensures var code := CcCvTable(d, step, ext).value[i][ModeCode];
      code in {Number(1.0), Number(2.0), Number(3.0), Number(4.0)} &&
      (code in {Number(1.0), Number(3.0)} <==> d == Charge) &&
      (code in {Number(1.0), Number(2.0)} <==> (i == 0 <==> step.stepMode == "Current"))
  {
  }

  /** Whatever the tag, the table handed to process_ends has one or two rows
      of six cells; only Charge and Dischrge steps have two, and only the
      Dischrge handler passes charge_type 0. */
  lemma HandlerTableShape(step: Step, ext: Externals)
    ensures var h := StepTypeLogic(step);
      var r := HandlerTable(h, step, ext);
      (r.Ok? ==> 1 <= |r.value| <= 2 && WellShaped(r.value)) &&
      (r.Ok? && |r.value| == 2 ==> step.stepType in {"Charge", "Dischrge"}) &&
      (r == Err(FallbackCalled) <==> h.InvalidStepType?) &&
      (HandlerChargeType(h) == 0 <==> step.stepType == "Dischrge")
  {
  }

  /** A StepValue with at least two fields: y0 is read from the first, the
      expression is the second with its tokens replaced (fields after the
      second are ignored), and the sign of the expression at ClassifyTime
      plus y0 picks the mode code. */
  lemma ChgFuncFromFields(step: Step, ext: Externals, y0Text: string, expression: string, y0: real, v: real)
    requires step.stepValue.Text?
    requires |Split(step.stepValue.s, '|')| >= 2
    requires Split(step.stepValue.s, '|')[0] == y0Text && Split(step.stepValue.s, '|')[1] == expression
    requires ext.parseFloat(y0Text) == Some(y0)
    requires ext.evaluate(Substitute(expression), ClassifyTime) == RealValue(v)
    ensures ChgFuncTable(step, ext) ==
      Ok([ControlRow(Func(Substitute(expression), y0), if v + y0 >= 0.0 then 1.0 else -1.0)])
  {
  }

  /** The example "0.5|CRATE*0": y0 is 0.5, the expression becomes 1*0, and
      the step is classified as charging; "-0.5|CRATE*0" is classified as
      discharging. */
  lemma ChgFuncExample(step: Step, ext: Externals, y0Text: string, y0: real)
    requires (y0Text == "0.5" && y0 == 0.5) || (y0Text == "-0.5" && y0 == -0.5)
    requires step.stepValue == Text(y0Text + "|CRATE*0")
    requires ext.parseFloat(y0Text) == Some(y0)
    requires ext.evaluate("1*0", ClassifyTime) == RealValue(0.0)
    ensures ChgFuncTable(step, ext) ==
      Ok([ControlRow(Func("1*0", y0), if y0 == 0.5 then 1.0 else -1.0)])
  {
    ExampleFields(step.stepValue.s, y0Text, "CRATE*0");
    ExampleSubstitution();
    ChgFuncFromFields(step, ext, y0Text, "CRATE*0", y0, 0.0);
  }

  lemma ExampleSubstitution()
    ensures Substitute("CRATE*0") == "1*0"
  {
  }

  lemma ExampleFields(s: string, y0Text: string, expression: string)
    requires y0Text == "0.5" || y0Text == "-0.5"
    requires expression == "CRATE*0"
    requires s == y0Text + "|" + expression
    ensures Split(s, '|') == [y0Text, expression]
  {
    assert '|' !in y0Text;
    SplitAtFirstSeparator(y0Text, expression, '|');
    assert '|' !in expression;
    SplitWithoutSeparator(expression, '|');
  }
}
