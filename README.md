# Step compiler of the mpet battery-cycling protocol

This project models the step compiler in `mpet/step_type_logic_functions.py`.
The compiler takes one step of a battery test protocol, a dictionary with the
keys `StepType`, `StepMode`, `StepValue`, `Limits` and `Ends`. It turns the
step into a control-law table of one or two rows. Each row has six cells:

    [setpoint, voltage limit, capacity-fraction limit, current limit, time limit, mode code]

An absent limit is Python's `None`. Mode code 1 means constant-current charge,
2 constant-current discharge, 3 constant-voltage charge and 4 constant-voltage
discharge. A custom-function step gets +1 or -1 instead. The table goes to
`process_ends`, which fills in the end conditions and returns the table
together with the index of the next step.

Layout:

- `protocol.dfy` (module `Protocol`) is the data model. It holds the step
  descriptor, the table cells, the mode-code taxonomy, the exceptions as an
  `Error` datatype, and `Externals`, the collaborators the compiler calls but
  does not define.
- `text.dfy` (module `Text`) models `str.split('|')` with its inverse `Join`.
  It also models the single regular-expression pass that turns `CRATE` into
  `1` and `STIME` into `t`.
- `table.dfy` (module `NumpyTable`) models the numpy object array as an
  `array<Row>`, one array element per table row of six cells. `NewTable` is
  `np.reshape(np.array(row), (1, 6))`, `VStack` is `np.vstack` and `SetCell`
  is the cell assignment `a[i][j] = v`.
- `step_rules.dfy` (module `StepRules`) holds the `StepTypeLogic` dispatch and
  the functions that specify what each handler hands to `process_ends`:
  `RestTable`, `CcCvTable` (one definition for both directions) and
  `ChgFuncTable`. The lemmas there state the rules of the table.
- `step_handlers.dfy` (module `StepHandlers`) holds the handlers
  `case_Rest`, `case_Charge`, `case_Dischrge` and `case_ChgFunc`. As in the
  source, `case_Rest` and `case_ChgFunc` create their single row whole.
  `case_Charge` and `case_Dischrge` set the cells of the initial row one by
  one, and grow the table with a second row when the step has a
  transition. Each handler is proved to
  produce `process_ends` applied to its specifying table and to the
  `charge_type` that the source passes.

Where a stricter design would raise an error, the model does what the code
does:

- An unknown `StepType` gets the fallback lambda. The lambda takes no
  argument, so calling it on the step raises (`FallbackCalled`).
- A `StepMode` other than `Current` or `Voltage` does not raise. It leaves
  one row with setpoint 0 and mode code 0, and that row still goes to
  `process_ends`.
- A step whose `Limits` is a dictionary without the key of the transition
  only prints and keeps one row. The key is Voltage for a current-mode step
  and Current for a voltage-mode step. This covers an empty dictionary and
  one that holds only other keys.
- Token replacement is plain substring replacement. It also applies inside
  longer identifiers.
- A custom function is classified as +1 or -1, not as 1 or 2.
- The expression of a custom function is the second `|`-separated field
  (`split('|')[1]`). Text after a second `|` is dropped.

## Model

| member | source | states |
|---|---|---|
| `StepRules.StepTypeLogic` | mpet/step_type_logic_functions.py:22-37 | Each of the tags 'Rest', 'Charge', 'Chg Func' and 'Dischrge' selects its own handler, in both directions of the iff. Every other tag selects the fallback, whose message is "invalid StepType". |
| `StepHandlers.CompileStep` | mpet/step_type_logic_functions.py:22-28 | Compiling a step runs the handler its tag selects. It fails exactly when that handler's table fails. It fails with the fallback error exactly for tags outside the four known ones. |
| `StepHandlers.Invoke` | mpet/step_type_logic_functions.py:36-37 | Calling the selected handler gives `process_ends` of that handler's table with that handler's charge_type. The fallback raises instead. |
| `StepRules.HandlerTableShape` | mpet/step_type_logic_functions.py:23-28 | For any tag, a table that reaches `process_ends` has one or two rows of six cells. Only Charge and Dischrge steps can have two rows. charge_type is 0 exactly for Dischrge. The fallback error occurs exactly for the fallback handler. |
| `StepHandlers.CaseRest` | mpet/step_type_logic_functions.py:40-47 | A rest step hands the single row [0, None, None, None, None, 1] to `process_ends` with charge_type 1, and the result is returned unchanged. |
| `StepRules.RestTable` | mpet/step_type_logic_functions.py:44 | The rest table has one row of six cells: setpoint 0, mode code 1 (the constant-current charge code), and every limit None. |
| `StepHandlers.CaseCharge` | mpet/step_type_logic_functions.py:50-89 | The in-place construction of the charge table (codes 1 and 3) equals the charge table of the direction-generic specification. It is handed to `process_ends` with charge_type 1. A failing `float` conversion surfaces as an error. |
| `StepHandlers.CaseDischrge` | mpet/step_type_logic_functions.py:121-160 | The discharge handler mirrors the charge handler: codes 2 and 4, process_current with 0, and charge_type 0 for `process_ends`. |
| `StepRules.CcCvTable` | mpet/step_type_logic_functions.py:54-85 | A built table has one or two rows of six cells. Row 0's mode code is the CC code in current mode, the CV code in voltage mode, and 0 otherwise. A second row is a blank row whose setpoint is row 0's transition-limit cell (voltage limit after CC, current limit after CV) and whose code is the other law's code. The only error is a failing `float`. |
| `StepRules.CurrentModeTable` | mpet/step_type_logic_functions.py:56-68 | In current mode, row 0 is CC with setpoint process_current(StepValue, charge_type). There are two rows exactly when Limits has a Voltage key. Then row 0's voltage limit is float(Limits['Voltage']), and row 1 is CV with that voltage as its setpoint. The step fails exactly when that float fails. |
| `StepRules.VoltageModeTable` | mpet/step_type_logic_functions.py:69-82 | In voltage mode, row 0 is CV with setpoint float(StepValue), without current processing. There are two rows exactly when Limits has a Current key. Then row 0's current limit is process_current(limit, charge_type), and row 1 is CC with that current as its setpoint. The step fails exactly when float(StepValue) fails. |
| `StepRules.OtherModeTable` | mpet/step_type_logic_functions.py:84-85 | Any other StepMode raises nothing. The table is the single initial row [0, None, None, None, None, 0]. |
| `StepRules.ModeCodeMeaning` | mpet/step_type_logic_functions.py:56-80 | Take a step with a valid mode. Every row's code is one of 1 to 4. Codes 1 and 3 occur exactly for charge. Codes 1 and 2 mark exactly the constant-current row: row 0 of a current-mode step, row 1 of a voltage-mode step. |
| `StepHandlers.CaseChgFunc` | mpet/step_type_logic_functions.py:92-117 | The custom-function handler hands the table of the specification to `process_ends` with charge_type 1. Each exception of the source is a distinct error. |
| `StepRules.ChgFuncTable` | mpet/step_type_logic_functions.py:94-114 | A built table is one row whose setpoint is the second bar-separated field of the StepValue with CRATE and STIME replaced, plus y0 = float of the first field. No token is left in it, and every limit is None. Its code is +1 or -1, and +1 exactly when the expression's value at t = 0.001 plus y0 is non-negative. Each error holds exactly in its case: a numeric StepValue, a first field that is not a number, a text without the bar, an expression that does not parse, and a value that cannot be compared with 0. |
| `StepRules.ChgFuncFromFields` | mpet/step_type_logic_functions.py:95-114 | For a StepValue with two or more bar-separated fields, y0 is float of the first field. The expression is the second field with its tokens replaced, and any further fields are ignored. The code is +1 when the expression's value at t = 0.001 plus y0 is non-negative, and -1 otherwise. |
| `StepRules.ChgFuncExample` | mpet/step_type_logic_functions.py:95-112 | The StepValue "0.5", bar, "CRATE*0" becomes y0 = 0.5 with expression 1*0 and is classified +1. With "-0.5" in front it is classified -1. |
| `Text.Substitute` | mpet/step_type_logic_functions.py:98-104 | The single regular-expression pass never makes the text longer. It changes the text only where it shortens it, since each replacement turns five characters into one. |
| `Text.SubstituteAlphabet` | mpet/step_type_logic_functions.py:98-104 | Every character of the result is '1', 't' or a character of the input. |
| `Text.SubstituteAtToken` | mpet/step_type_logic_functions.py:98-104 | At the first token of a text, CRATE becomes '1' and STIME becomes 't'. The text before the token is copied unchanged, and the scan goes on after it. This holds also inside a longer identifier, where "XCRATEY" becomes "X1Y". |
| `Text.Split` | mpet/step_type_logic_functions.py:95-96 | str.split gives at least one field, and no field contains the separator. There are two or more fields exactly when the separator occurs. |
| `Text.JoinSplit` | mpet/step_type_logic_functions.py:95-96 | Joining the fields of a split with the separator gives back the original text. |
| `Text.FirstTwoFields` | mpet/step_type_logic_functions.py:95-96 | When the text contains the bar separator, y0's text is everything before the first bar. The expression runs from there to the second bar or to the end. |
| `Text.SplitAtFirstSeparator` | mpet/step_type_logic_functions.py:95 | Splitting a, bar, b, where a has no bar, gives a followed by the fields of b. |
| `Text.SplitWithoutSeparator` | mpet/step_type_logic_functions.py:96 | A text without the bar separator is a single field, so there is no expression field. |
| `Text.SubstituteLeavesNoToken` | mpet/step_type_logic_functions.py:98-104 | After the single left-to-right pass, no CRATE or STIME is left, even where the replacements meet their neighbours. |
| `Text.SubstituteKeepsTokenFreeText` | mpet/step_type_logic_functions.py:102-104 | A text without tokens passes through the substitution unchanged. |
| `NumpyTable.NewTable` | mpet/step_type_logic_functions.py:44 | A fresh array with exactly the given row. |
| `NumpyTable.VStack` | mpet/step_type_logic_functions.py:62 | A fresh array with the old rows followed by the new row. A table whose rows all have six cells keeps that shape. |
| `NumpyTable.SetCell` | mpet/step_type_logic_functions.py:57 | A cell assignment changes that one cell and nothing else, and keeps the table six cells wide. |
| `NumpyTable.Assign` | mpet/step_type_logic_functions.py:64-66 | The table value after a cell assignment: the assigned cell holds the new value, every other cell of its row is unchanged, and every other row is unchanged. |

## Left out

- `process_current` and `process_ends` live in `mpet/utils`, which is not part of this model. They are the function-typed parameters `processCurrent` and `processEnds`, with no properties assumed. `processCurrent` and `processEnds` are total, so an exception raised inside `process_current` or `process_ends` (for example on a malformed `Ends`) is not modelled.
- sympy's `parse_expr` and `subs` are the parameter `evaluate`. It reports a syntax error, a value that is not a real number, or a real value. Python's `float` on a text is the parameter `parseFloat`. `Float` is Python's `float` on a descriptor value: a number is kept and a text goes to `parseFloat`.
- `Evaluation`: a real value of the expression is a finite real. sympy's `oo` and `-oo`, which the source compares with 0 and classifies as +1 or -1, can only be reported as `NotReal`, so the model then raises `NotComparable`.
- Numbers are unbounded reals, not IEEE floats. Python ints and floats in the table are both `Number`.
- The `print` diagnostics are left out.
- The step descriptor is a record with every key present, so the `KeyError` of a missing key is not modelled. `Limits` is either None or a dictionary. `StepMode` is a text.
- `StepTypeLogic` returns a Python function. The model returns a `Handler` tag, and `Invoke` runs the handler the tag names.
- The plotting dashboard, the optimizer driver, the electrolyte property correlations, data reporting and the test configuration are not part of this model.
