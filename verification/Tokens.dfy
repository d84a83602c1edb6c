/** The small vocabularies shared by the calculator, the wire protocol and the voice. */
module Tokens {
  datatype Option<+T> = None | Some(value: T)

  datatype BinaryOp = Add | Subtract | Multiply | Divide {
    function Symbol(): string {
      match this
      case Add => "+"
      case Subtract => "-"
      case Multiply => "\U{00d7}"
      case Divide => "\U{00f7}"
    }
  }

  datatype CalcAction =
    | Digit(d: nat)
    | DecimalPoint
    | Operator(op: BinaryOp)
    | Equals
    | Percent
    | Mu
    | SquareRoot
    | Backspace
    | Clear
    | AllClear
    | PlusMinus
    | MemoryRecall
    | MemoryAdd
    | MemorySubtract
    | MemoryClear

  /** The schema test that both local and remote actions pass before they reach a calculator. */
  predicate ValidAction(a: CalcAction) {
    a.Digit? ==> a.d <= 9
  }
}
