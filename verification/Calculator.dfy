/** The immediate-execution engine: a text buffer, an accumulator, one pending operator, repeat-equals and memory. */
module CalculatorEngine {
  import opened Tokens
  import opened Numerals

  datatype Phase = Idle | Input | OpPending | Evaluated | Error

  datatype Markup = NoMarkup | Waiting(cost: real) | Done(cost: real, sell: real)

  datatype CalcError = DivideByZero | NegativeSquareRoot | Overflow {
    function Text(): string {
      match this
      case DivideByZero => "不能除以零"
      case NegativeSquareRoot => "输入无效"
      case Overflow => "溢出"
    }
  }

  datatype Outcome = Value(v: real) | Fault(e: CalcError)

  /** The decimal library: rounding, square root and the display format are whatever it makes them. */
  datatype Arithmetic = Arithmetic(
    compute: (BinaryOp, real, real) -> real,
    sqrt: real -> Option<real>,
    show: real -> string)

  datatype CalcState = CalcState(
    input: string,
    acc: real,
    pending: Option<BinaryOp>,
    lastOperand: real,
    lastOp: Option<BinaryOp>,
    memory: real,
    phase: Phase,
    markup: Markup,
    history: string)

  const FRESH := CalcState("", 0.0, None, 0.0, None, 0.0, Idle, NoMarkup, "")

  datatype CalcResult = CalcResult(display: string, history: string, memoryIndicator: string, isError: bool)

  // ---------- what the keys do, as functions of the state ----------

  function Operand(s: CalcState): real {
    if IsNumeral(s.input) then DecimalValue(s.input) else s.acc
  }

  function Shown(ar: Arithmetic, s: CalcState): CalcResult {
    CalcResult(
      if s.phase.Error? then "错误"
      else if s.input != "" then s.input
      else if s.phase.Idle? then "0"
      else ar.show(s.acc),
      s.history,
      if s.memory != 0.0 then "M" else "",
      s.phase.Error?)
  }

  function Binary(ar: Arithmetic, lhs: real, op: BinaryOp, rhs: real): Outcome {
    if op.Divide? && rhs == 0.0 then Fault(DivideByZero) else Value(ar.compute(op, lhs, rhs))
  }

  function Failed(s: CalcState, e: CalcError): CalcState {
    s.(phase := Error, history := e.Text())
  }

  function PressDigit(s: CalcState, d: nat): CalcState
    requires d <= 9
  {
    if s.phase.Error? then s
    else s.(input := (if s.phase.Input? then s.input else "") + [DigitChar(d)], phase := Input)
  }

  function PressPoint(s: CalcState): CalcState {
    if s.phase.Error? then s
    else if !s.phase.Input? || s.input == "" then s.(input := "0.", phase := Input)
    else if '.' in s.input then s
    else s.(input := s.input + ".")
  }

  function Reduced(ar: Arithmetic, s: CalcState): Outcome {
    if s.pending.Some? then Binary(ar, s.acc, s.pending.value, Operand(s)) else Value(Operand(s))
  }

  function PressOperator(ar: Arithmetic, s: CalcState, op: BinaryOp): CalcState {
    if s.phase.Error? then s
    else if s.phase.Input? || s.phase.Evaluated? then
      match Reduced(ar, s)
      case Fault(e) => Failed(s, e)
      case Value(v) =>
        s.(acc := v, input := "", history := ar.show(v) + " " + op.Symbol(),
           pending := Some(op), phase := OpPending, markup := NoMarkup)
    else
      s.(history := if s.phase.OpPending? then ar.show(s.acc) + " " + op.Symbol() else s.history,
         pending := Some(op), phase := OpPending, markup := NoMarkup)
  }

  function Finish(ar: Arithmetic, s: CalcState, op: BinaryOp, rhs: real): CalcState {
    match Binary(ar, s.acc, op, rhs)
    case Fault(e) => Failed(s, e)
    case Value(v) =>
      s.(history := ar.show(s.acc) + " " + op.Symbol() + " " + ar.show(rhs) + " = ",
         acc := v, input := "", lastOperand := rhs, lastOp := Some(op),
         pending := None, phase := Evaluated, markup := NoMarkup)
  }

  function PressEquals(ar: Arithmetic, s: CalcState): CalcState {
    if s.phase.Error? then s
    else if s.markup.Done? then
      s.(acc := ar.compute(Subtract, s.markup.sell, s.markup.cost), input := "", phase := Evaluated,
         history := ar.show(s.markup.sell) + " = ", lastOperand := s.markup.cost, lastOp := None,
         markup := NoMarkup)
    else if s.phase.Evaluated? then
      if s.lastOp.Some? then Finish(ar, s, s.lastOp.value, s.lastOperand) else s
    else if s.pending.Some? then
      Finish(ar, s, s.pending.value, if s.input == "" then s.acc else Operand(s))
    else s.(phase := Evaluated, lastOp := None)
  }

  function PercentOf(ar: Arithmetic, s: CalcState): Outcome {
    var b := Operand(s);
    var share := ar.compute(Divide, ar.compute(Multiply, s.acc, b), 100.0);
    match s.pending
    case None => Value(ar.compute(Divide, b, 100.0))
    case Some(Multiply) => Value(share)
    case Some(Divide) =>
      var pct := ar.compute(Divide, b, 100.0);
      if pct == 0.0 then Fault(DivideByZero) else Value(ar.compute(Divide, s.acc, pct))
    case Some(op) => Value(ar.compute(op, s.acc, share))
  }

  function PressPercent(ar: Arithmetic, s: CalcState): CalcState {
    if s.phase.Error? then s
    else if s.markup.Waiting? then
      var rate := Operand(s);
      var denom := ar.compute(Subtract, 1.0, ar.compute(Divide, rate, 100.0));
      if denom == 0.0 then Failed(s, DivideByZero)
      else
        var sell := ar.compute(Divide, s.markup.cost, denom);
        s.(acc := sell, input := "", phase := Evaluated,
           history := "MU: " + ar.show(s.markup.cost) + " / (1 - " + ar.show(rate) + "%)",
           markup := Done(s.markup.cost, sell), pending := None)
    else
      match PercentOf(ar, s)
      case Fault(e) => Failed(s, e)
      case Value(v) => s.(acc := v, input := "", pending := None, phase := Evaluated)
  }

  function PressMu(s: CalcState): CalcState {
    if s.phase.Error? then s else s.(markup := Waiting(Operand(s)), input := "", phase := OpPending)
  }

  function PressRoot(ar: Arithmetic, s: CalcState): CalcState {
    if s.phase.Error? then s
    else if Operand(s) < 0.0 then Failed(s, NegativeSquareRoot)
    else
      match ar.sqrt(Operand(s))
      case None => Failed(s, Overflow)
      case Some(root) => s.(acc := root, input := "", phase := Evaluated)
  }

  function PressBackspace(s: CalcState): CalcState {
    if s.phase.Input? && s.input != "" then
      var rest := s.input[..|s.input| - 1];
      if rest == "" || rest == "-" || rest == "-0" then s.(input := "", phase := Idle) else s.(input := rest)
    else s
  }

  function PressSign(s: CalcState): CalcState {
    if s.phase.Error? then s
    else if s.phase.Input? && s.input != "" then
      s.(input := if s.input[0] == '-' then s.input[1..] else "-" + s.input)
    else s.(acc := -s.acc)
  }

  function Press(ar: Arithmetic, s: CalcState, a: CalcAction): CalcState
    requires ValidAction(a)
  {
    match a
    case Digit(d) => PressDigit(s, d)
    case DecimalPoint => PressPoint(s)
    case Operator(op) => PressOperator(ar, s, op)
    case Equals => PressEquals(ar, s)
    case Percent => PressPercent(ar, s)
    case Mu => PressMu(s)
    case SquareRoot => PressRoot(ar, s)
    case Backspace => PressBackspace(s)
    case Clear => if s.phase.Error? then s else s.(input := "", phase := Idle)
    case AllClear => FRESH
    case PlusMinus => PressSign(s)
    case MemoryRecall => if s.phase.Error? then s else s.(acc := s.memory, input := "", phase := Evaluated)
    case MemoryAdd =>
      if s.phase.Error? then s else s.(memory := ar.compute(Add, s.memory, Operand(s)), phase := Evaluated)
    case MemorySubtract =>
      if s.phase.Error? then s else s.(memory := ar.compute(Subtract, s.memory, Operand(s)), phase := Evaluated)
    case MemoryClear => if s.phase.Error? then s else s.(memory := 0.0, phase := Evaluated)
  }

  /** What an authoritative remote snapshot leaves of the local engine. */
  function Restore(s: CalcState, snap: CalcResult): CalcState {
    CalcState("",
              if !snap.isError && IsNumeral(snap.display) then DecimalValue(snap.display) else 0.0,
              None, 0.0, None,
              if snap.memoryIndicator == "" then 0.0 else s.memory,
              if snap.isError then Error else Evaluated,
              NoMarkup, snap.history)
  }

  // ---------- the engine itself ----------

  class Calculator {
    const arith: Arithmetic
    var input: string
    var acc: real
    var pending: Option<BinaryOp>
    var lastOperand: real
    var lastOp: Option<BinaryOp>
    var memory: real
    var phase: Phase
    var markup: Markup
    var history: string

    ghost function State(): CalcState
      reads this
    {
      CalcState(input, acc, pending, lastOperand, lastOp, memory, phase, markup, history)
    }

    constructor (arith: Arithmetic)
      ensures State() == FRESH && this.arith == arith
    {
      this.arith := arith;
      input, acc, pending, lastOperand, lastOp := "", 0.0, None, 0.0, None;
      memory, phase, markup, history := 0.0, Idle, NoMarkup, "";
    }

    function DisplayValue(): (v: real)
      reads this
      ensures v == Operand(State())
    {
      if input == "" then acc else if IsNumeral(input) then DecimalValue(input) else acc
    }

    function Result(): (r: CalcResult)
      reads this
      ensures r == Shown(arith, State())
    {
      var display := if phase == Error then "错误"
                     else if input == "" then (if phase == Idle then "0" else arith.show(acc))
                     else input;
      CalcResult(display, history, if memory != 0.0 then "M" else "", phase == Error)
    }

    method EnterError(e: CalcError)
      modifies this
      ensures State() == Failed(old(State()), e)
    {
      phase := Error;
      history := e.Text();
    }

    method OnDigit(d: nat)
      requires d <= 9
      modifies this
      ensures State() == PressDigit(old(State()), d)
    {
      if phase == Error { return; }
      if phase == Evaluated || phase == Idle || phase == OpPending {
        input := "";
        phase := Input;
      }
      input := input + [DigitChar(d)];
    }

    method OnDecimalPoint()
      modifies this
      ensures State() == PressPoint(old(State()))
    {
      if phase == Error { return; }
      if phase == Evaluated || phase == Idle || phase == OpPending {
        input := "0.";
        phase := Input;
      } else if '.' !in input {
        if input == "" { input := "0."; } else { input := input + "."; }
      }
    }

    method OnOperator(op: BinaryOp)
      modifies this
      ensures State() == PressOperator(arith, old(State()), op)
    {
      if phase == Error { return; }
      if phase == Input || phase == Evaluated {
        var rhs := DisplayValue();
        var val := if pending.Some? then Binary(arith, acc, pending.value, rhs) else Value(rhs);
        if val.Fault? {
          EnterError(val.e);
          return;
        }
        acc := val.v;
        input := "";
        history := arith.show(acc) + " " + op.Symbol();
      } else if phase == OpPending {
        history := arith.show(acc) + " " + op.Symbol();
      }
      pending := Some(op);
      phase := OpPending;
      markup := NoMarkup;
    }

    method OnEquals()
      modifies this
      ensures State() == PressEquals(arith, old(State()))
    {
      if phase == Error { return; }
      if markup.Done? {
        acc := arith.compute(Subtract, markup.sell, markup.cost);
        input := "";
        phase := Evaluated;
        history := arith.show(markup.sell) + " = ";
        lastOperand, lastOp := markup.cost, None;
        markup := NoMarkup;
        return;
      }
      var rhs, op;
      if phase == Evaluated {
        if lastOp == None { return; }
        rhs, op := lastOperand, lastOp.value;
      } else if pending.Some? {
        rhs, op := DisplayValue(), pending.value;
      } else {
        phase := Evaluated;
        lastOp := None;
        return;
      }
      var val := Binary(arith, acc, op, rhs);
      if val.Fault? {
        EnterError(val.e);
        return;
      }
      history := arith.show(acc) + " " + op.Symbol() + " " + arith.show(rhs) + " = ";
      acc := val.v;
      input := "";
      lastOperand, lastOp := rhs, Some(op);
      pending := None;
      phase := Evaluated;
      markup := NoMarkup;
    }

    method OnPercent()
      modifies this
      ensures State() == PressPercent(arith, old(State()))
    {
      if phase == Error { return; }
      if markup.Waiting? {
        var cost, rate := markup.cost, DisplayValue();
        var denom := arith.compute(Subtract, 1.0, arith.compute(Divide, rate, 100.0));
        if denom == 0.0 {
          EnterError(DivideByZero);
          return;
        }
        acc := arith.compute(Divide, cost, denom);
        input := "";
        phase := Evaluated;
        history := "MU: " + arith.show(cost) + " / (1 - " + arith.show(rate) + "%)";
        markup := Done(cost, acc);
        pending := None;
        return;
      }
      var val := PercentOf(arith, CalcState(input, acc, pending, lastOperand, lastOp, memory, phase, markup, history));
      if val.Fault? {
        EnterError(val.e);
        return;
      }
      acc := val.v;
      input := "";
      pending := None;
      phase := Evaluated;
    }

    method OnSquareRoot()
      modifies this
      ensures State() == PressRoot(arith, old(State()))
    {
      if phase == Error { return; }
      var v := DisplayValue();
      if v < 0.0 {
        EnterError(NegativeSquareRoot);
        return;
      }
      match arith.sqrt(v)
      case Some(root) =>
        acc := root;
        input := "";
        phase := Evaluated;
      case None =>
        EnterError(Overflow);
    }

    method OnBackspace()
      modifies this
      ensures State() == PressBackspace(old(State()))
    {
      if phase == Error { return; }
      if phase == Input && input != "" {
        input := input[..|input| - 1];
        if input == "" || input == "-" || input == "-0" {
          input := "";
          phase := Idle;
        }
      }
    }

    method OnPlusMinus()
      modifies this
      ensures State() == PressSign(old(State()))
    {
      if phase == Error { return; }
      if phase == Input && input != "" {
        if input[0] == '-' { input := input[1..]; } else { input := "-" + input; }
      } else {
        acc := -acc;
      }
    }

    method Dispatch(action: CalcAction) returns (r: CalcResult)
      requires ValidAction(action)
      modifies this
      ensures State() == Press(arith, old(State()), action)
      ensures r == Shown(arith, State())
    {
      match action {
        case Digit(d) => OnDigit(d);
        case DecimalPoint => OnDecimalPoint();
        case Operator(op) => OnOperator(op);
        case Equals => OnEquals();
        case Percent => OnPercent();
        case Mu =>
          if phase != Error {
            markup := Waiting(DisplayValue());
            input := "";
            phase := OpPending;
          }
        case SquareRoot => OnSquareRoot();
        case Backspace => OnBackspace();
        case Clear => if phase != Error { input := ""; phase := Idle; }
        case AllClear =>
          input, acc, pending, lastOperand, lastOp := "", 0.0, None, 0.0, None;
          memory, phase, markup, history := 0.0, Idle, NoMarkup, "";
        case PlusMinus => OnPlusMinus();
        case MemoryRecall => if phase != Error { acc := memory; input := ""; phase := Evaluated; }
        case MemoryAdd =>
          if phase != Error { memory := arith.compute(Add, memory, DisplayValue()); phase := Evaluated; }
        case MemorySubtract =>
          if phase != Error { memory := arith.compute(Subtract, memory, DisplayValue()); phase := Evaluated; }
        case MemoryClear => if phase != Error { memory := 0.0; phase := Evaluated; }
      }
      r := Result();
    }

    method ResetFromSnapshot(snap: CalcResult)
      modifies this
      ensures State() == Restore(old(State()), snap)
    {
      if snap.isError {
        phase := Error;
        acc := 0.0;
      } else {
        phase := Evaluated;
        acc := if IsNumeral(snap.display) then DecimalValue(snap.display) else 0.0;
      }
      input, pending, lastOperand, lastOp, markup := "", None, 0.0, None, NoMarkup;
      history := snap.history;
      if snap.memoryIndicator == "" { memory := 0.0; }
    }
  }
}
