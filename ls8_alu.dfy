/**
 * The LS-8 arithmetic/logic unit (`CPU.alu` in ls8/cpu.py) as a pure function of the
 * register file and the flag register. Register contents are Python integers: no
 * result is masked to 8 bits.
 */
module Ls8Alu {
  import PyInt

  /** The operation names `alu` accepts; any other string raises in the source. */
  datatype AluOp = Add | Mul | Cmp | Sub | Div | Or | Xor | Not | Shl | Shr | Mod | And | AddI

  /** The Python exceptions an ALU operation can raise. */
  datatype PyError =
    | ZeroDivisionError   // `%` or `/` by zero
    | ValueError          // `<<` or `>>` by a negative count

  datatype AluResult = Done(reg: seq<int>, fl: int) | Failed(error: PyError)

  /** Flag values written by CMP. */
  const FL_EQUAL: int := 1
  const FL_GREATER: int := 2
  const FL_LESS: int := 4

  /** Whether the operation reads `reg[reg_b]` (NOT ignores it; ADDI uses `reg_b` itself). */
  predicate ReadsRegB(op: AluOp) {
    op != Not && op != AddI
  }

  predicate IsReg(i: int) {
    0 <= i < 8
  }

  /** The inputs for which the ALU raises instead of producing a value. */
  predicate Raises(op: AluOp, reg: seq<int>, b: int)
    requires |reg| == 8 && (ReadsRegB(op) ==> IsReg(b))
  {
    ((op == Mod || op == Div) && reg[b] == 0) || ((op == Shl || op == Shr) && reg[b] < 0)
  }

  /**
   * `alu(op, reg_a, reg_b)`. DIV is modelled only when it divides by zero: with any
   * other divisor Python's `/=` stores a float in the register.
   */
  function Apply(op: AluOp, a: int, b: int, reg: seq<int>, fl: int): (r: AluResult)
    requires |reg| == 8 && IsReg(a) && (ReadsRegB(op) ==> IsReg(b))
    requires op == Div ==> reg[b] == 0
    ensures r.Failed? <==> Raises(op, reg, b)
    ensures r.Failed? && (op == Mod || op == Div) ==> r.error == ZeroDivisionError
    ensures r.Failed? && (op == Shl || op == Shr) ==> r.error == ValueError
    // every operation but CMP writes reg[a] only and keeps the flags
    ensures r.Done? && op != Cmp ==> |r.reg| == 8 && r.reg == reg[a := r.reg[a]] && r.fl == fl
    // CMP keeps the registers and sets exactly the flag that matches the ordering
    ensures op == Cmp ==> r.Done? && r.reg == reg
    ensures op == Cmp ==> (r.fl == FL_EQUAL <==> reg[a] == reg[b])
    ensures op == Cmp ==> (r.fl == FL_GREATER <==> reg[a] > reg[b])
    ensures op == Cmp ==> (r.fl == FL_LESS <==> reg[a] < reg[b])
    ensures op == Cmp ==> r.fl in {FL_EQUAL, FL_GREATER, FL_LESS}
  {
    var x := reg[a];
    match op
    case Add => Done(reg[a := x + reg[b]], fl)
    case Mul => Done(reg[a := PyInt.Mul(x, reg[b])], fl)
    case Cmp =>
      var y := reg[b];
      Done(reg, if x == y then FL_EQUAL else if x > y then FL_GREATER else FL_LESS)
    case Sub => Done(reg[a := x - reg[b]], fl)
    case Div => Failed(ZeroDivisionError)
    case Or => Done(reg[a := PyInt.Or(x, reg[b])], fl)
    case Xor => Done(reg[a := PyInt.Xor(x, reg[b])], fl)
    case Not => Done(reg[a := PyInt.Invert(x)], fl)
    case Shl => if reg[b] < 0 then Failed(ValueError) else Done(reg[a := PyInt.Shl(x, reg[b])], fl)
    case Shr => if reg[b] < 0 then Failed(ValueError) else Done(reg[a := PyInt.Shr(x, reg[b])], fl)
    case Mod => if reg[b] == 0 then Failed(ZeroDivisionError) else Done(reg[a := PyInt.FloorMod(x, reg[b])], fl)
    case And => Done(reg[a := PyInt.And(x, reg[b])], fl)
    case AddI => Done(reg[a := x + b], fl)
  }
}
