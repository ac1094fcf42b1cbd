/** The step handlers case_Rest, case_Charge, case_ChgFunc and case_Dischrge.
    case_Rest and case_ChgFunc create their single row whole; case_Charge
    and case_Dischrge set the cells of the initial row one by one and grow
    the table to two rows for a CC->CV or CV->CC transition. Each hands the
    table to process_ends and is proved to build the table its StepRules
    function describes. */
module StepHandlers {
  import opened Protocol
  import opened Text
  import opened NumpyTable
  import opened StepRules

  /** case_Rest: a rest is constant current 0 with charge_type 1. */
  method CaseRest(step: Step, ext: Externals) returns (out: (Table, int))
    ensures out == ext.processEnds(step.ends, [ControlRow(Number(0.0), CcCode(Charge))], ChargeType(Charge))
    ensures Finish(step, ext, HandlerTable(RestHandler, step, ext), HandlerChargeType(RestHandler)) == Ok(out)
  {
    var t := NewTable(ControlRow(Number(0.0), 1.0));
    out := ext.processEnds(step.ends, t[..], 1);
  }

  /** case_Charge: mode codes 1 (CC) and 3 (CV), charge_type 1. */
  method CaseCharge(step: Step, ext: Externals) returns (r: Result<(Table, int)>)
    ensures r == Finish(step, ext, CcCvTable(Charge, step, ext), ChargeType(Charge))
  {
    var t := NewTable(ControlRow(Number(0.0), 0.0));
    if step.stepMode == "Current" {
      SetCell(t, 0, ModeCode, Number(1.0));
      var current := Number(ext.processCurrent(step.stepValue, 1));
      SetCell(t, 0, Setpoint, current);
      FirstRowSet(current, 1.0);
      assert t[..] == [ControlRow(current, 1.0)];
      if step.limits.Some? {
        if "Voltage" in step.limits.value {
          t := VStack(t, ControlRow(Number(0.0), 0.0));
          var v := Float(step.limits.value["Voltage"], ext);
          if v.None? {
            return Err(NotANumber);
          }
          SetCell(t, 0, VoltageLimit, Number(v.value));
          SetCell(t, 1, ModeCode, Number(3.0));
          SetCell(t, 1, Setpoint, t[0][VoltageLimit]);
          TransitionSet(ControlRow(current, 1.0), VoltageLimit, Number(v.value), 3.0);
          assert t[..] == [ControlRow(current, 1.0)[VoltageLimit := Number(v.value)], ControlRow(Number(v.value), 3.0)];
        }
      }
    } else if step.stepMode == "Voltage" {
      SetCell(t, 0, ModeCode, Number(3.0));
      var v := Float(step.stepValue, ext);
      if v.None? {
        return Err(NotANumber);
      }
      SetCell(t, 0, Setpoint, Number(v.value));
      FirstRowSet(Number(v.value), 3.0);
      assert t[..] == [ControlRow(Number(v.value), 3.0)];
      if step.limits.Some? {
        if "Current" in step.limits.value {
          t := VStack(t, ControlRow(Number(0.0), 0.0));
          var limit := Number(ext.processCurrent(step.limits.value["Current"], 1));
          SetCell(t, 0, CurrentLimit, limit);
          SetCell(t, 1, ModeCode, Number(1.0));
          SetCell(t, 1, Setpoint, t[0][CurrentLimit]);
          TransitionSet(ControlRow(Number(v.value), 3.0), CurrentLimit, limit, 1.0);
          assert t[..] == [ControlRow(Number(v.value), 3.0)[CurrentLimit := limit], ControlRow(limit, 1.0)];
        }
      }
    }
    r := Ok(ext.processEnds(step.ends, t[..], 1));
  }

  /** case_Dischrge: mode codes 2 (CC) and 4 (CV), charge_type 0. */
  method CaseDischrge(step: Step, ext: Externals) returns (r: Result<(Table, int)>)
    ensures r == Finish(step, ext, CcCvTable(Discharge, step, ext), ChargeType(Discharge))
  {
    var t := NewTable(ControlRow(Number(0.0), 0.0));
    if step.stepMode == "Current" {
      SetCell(t, 0, ModeCode, Number(2.0));
      var current := Number(ext.processCurrent(step.stepValue, 0));
      SetCell(t, 0, Setpoint, current);
      FirstRowSet(current, 2.0);
      assert t[..] == [ControlRow(current, 2.0)];
      if step.limits.Some? {
        if "Voltage" in step.limits.value {
          t := VStack(t, ControlRow(Number(0.0), 0.0));
          var v := Float(step.limits.value["Voltage"], ext);
          if v.None? {
            return Err(NotANumber);
          }
          SetCell(t, 0, VoltageLimit, Number(v.value));
          SetCell(t, 1, ModeCode, Number(4.0));
          SetCell(t, 1, Setpoint, t[0][VoltageLimit]);
          TransitionSet(ControlRow(current, 2.0), VoltageLimit, Number(v.value), 4.0);
          assert t[..] == [ControlRow(current, 2.0)[VoltageLimit := Number(v.value)], ControlRow(Number(v.value), 4.0)];
        }
      }
    } else if step.stepMode == "Voltage" {
      SetCell(t, 0, ModeCode, Number(4.0));
      var v := Float(step.stepValue, ext);
      if v.None? {
        return Err(NotANumber);
      }
      SetCell(t, 0, Setpoint, Number(v.value));
      FirstRowSet(Number(v.value), 4.0);
      assert t[..] == [ControlRow(Number(v.value), 4.0)];
      if step.limits.Some? {
        if "Current" in step.limits.value {
          t := VStack(t, ControlRow(Number(0.0), 0.0));
          var limit := Number(ext.processCurrent(step.limits.value["Current"], 0));
          SetCell(t, 0, CurrentLimit, limit);
          SetCell(t, 1, ModeCode, Number(2.0));
          SetCell(t, 1, Setpoint, t[0][CurrentLimit]);
          TransitionSet(ControlRow(Number(v.value), 4.0), CurrentLimit, limit, 2.0);
          assert t[..] == [ControlRow(Number(v.value), 4.0)[CurrentLimit := limit], ControlRow(limit, 2.0)];
        }
      }
    }
    r := Ok(ext.processEnds(step.ends, t[..], 0));
  }

  /** case_ChgFunc: split "y0|expression", replace the tokens, classify the
      step by the sign of the expression plus y0 at ClassifyTime, and store
      the unevaluated expression as the setpoint; charge_type 1. */
  method CaseChgFunc(step: Step, ext: Externals) returns (r: Result<(Table, int)>)
    ensures r == Finish(step, ext, ChgFuncTable(step, ext), ChargeType(Charge))
  {
    if step.stepValue.Num? {
      return Err(NotText);
    }
    var fields := Split(step.stepValue.s, '|');
    var y0 := ext.parseFloat(fields[0]);
    if y0.None? {
      return Err(NotANumber);
    }
    if |fields| < 2 {
      return Err(MissingExpression);
    }
    var text := Substitute(fields[1]);
    var f := ext.evaluate(text, ClassifyTime);
    if f.SyntaxError? {
      return Err(ExpressionSyntax);
    }
    if f.NotReal? {
      return Err(NotComparable);
    }
    var chgDichg := 0.0;
    if f.v + y0.value >= 0.0 {
      chgDichg := 1.0;
    } else {
      chgDichg := -1.0;
    }
    var t := NewTable(ControlRow(Func(text, y0.value), chgDichg));
    r := Ok(ext.processEnds(step.ends, t[..], 1));
  }

  /** Calling the handler StepTypeLogic returned on the step, as its
      docstring describes: the four handlers run, the fallback lambda takes
      no argument and raises. */
  method Invoke(h: Handler, step: Step, ext: Externals) returns (r: Result<(Table, int)>)
    ensures r == Finish(step, ext, HandlerTable(h, step, ext), HandlerChargeType(h))
  {
    match h {
      case RestHandler =>
        var out := CaseRest(step, ext);
        r := Ok(out);
      case ChargeHandler =>
        r := CaseCharge(step, ext);
      case ChgFuncHandler =>
        r := CaseChgFunc(step, ext);
      case DischrgeHandler =>
        r := CaseDischrge(step, ext);
      case InvalidStepType(_) =>
        r := Err(FallbackCalled);
    }
  }

  /** Compile one step: dispatch on StepType, then run the handler. */
  method CompileStep(step: Step, ext: Externals) returns (r: Result<(Table, int)>)
    ensures r == Finish(step, ext, HandlerTable(StepTypeLogic(step), step, ext),
                        HandlerChargeType(StepTypeLogic(step)))
    ensures r.Err? <==> HandlerTable(StepTypeLogic(step), step, ext).Err?
    ensures r == Err(FallbackCalled) <==> step.stepType !in {"Rest", "Charge", "Chg Func", "Dischrge"}
  {
    var h := StepTypeLogic(step);
    r := Invoke(h, step, ext);
  }
}
