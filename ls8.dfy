/**
 * The LS-8 execution engine of ls8/cpu.py as pure functions over a `Machine` value:
 * the decoder, bounds-checked memory, the stack-pointer setter, every `execute_*`
 * handler of the branch table, one turn of the `run` loop (`Step`) and a fuel-bounded
 * `Run`. The class `Ls8Cpu.Cpu` implements the same operations in place on arrays and
 * is proved equal to these functions.
 */
module Ls8 {
  import opened Wrappers
  import PyInt
  import Alu = Ls8Alu

  // Opcodes (ls8/cpu.py, lines 8-35)
  const HLT: int := 0x01   // 0b00000001
  const LDI: int := 0x82   // 0b10000010
  const PRN: int := 0x47   // 0b01000111
  const MUL: int := 0xA2   // 0b10100010
  const PUSH: int := 0x45  // 0b01000101
  const POP: int := 0x46   // 0b01000110
  const CALL: int := 0x50  // 0b01010000
  const RET: int := 0x11   // 0b00010001
  const ADD: int := 0xA0   // 0b10100000
  const JMP: int := 0x54   // 0b01010100
  const JEQ: int := 0x55   // 0b01010101
  const JNE: int := 0x56   // 0b01010110
  const CMP: int := 0xA7   // 0b10100111
  const AST: int := 0x4F   // 0b01001111
  const SUB: int := 0xA1   // 0b10100001
  const DIV: int := 0xA3   // 0b10100011
  const MOD: int := 0xA4   // 0b10100100
  const OR: int := 0xAA    // 0b10101010
  const XOR: int := 0xAB   // 0b10101011
  const NOT: int := 0x69   // 0b01101001
  const SHL: int := 0xAC   // 0b10101100
  const SHR: int := 0xAD   // 0b10101101
  const ADDI: int := 0xA5  // 0b10100101
  const AND: int := 0xA8   // 0b10101000
  const ST: int := 0x84    // 0b10000100
  const PRA: int := 0x48   // 0b01001000
  const IRET: int := 0x13  // 0b00010011
  const IINT: int := 0x52  // 0b01010010, defined but absent from the branch table

  /** R7 is the stack pointer. */
  const SP: int := 7
  const RAM_SIZE: int := 256
  /** The stack pointer after construction. */
  const SP_INIT: int := 0xF4
  /** The largest code point `chr` accepts. */
  const MAX_CODE_POINT: int := 0x10FFFF

  /**
   * The keys of `self.branchtable`, filled in by the constructor. The entry for IRET is
   * not part of this model (CanStep excludes that opcode).
   */
  predicate InBranchTable(op: int) {
    || op == HLT || op == LDI || op == PRN || op == MUL || op == PUSH || op == POP
    || op == CALL || op == RET || op == ADD || op == CMP || op == JMP || op == JEQ
    || op == JNE || op == AST || op == SUB || op == DIV || op == MOD || op == OR
    || op == XOR || op == NOT || op == SHL || op == SHR || op == ADDI || op == AND
    || op == PRA || op == ST
  }

  /** One `print` call of a handler: PRN prints a number, PRA a character, AST a row of stars. */
  datatype Printed = Number(value: int) | Character(code: int) | Stars(text: string)

  /** Why a run stopped with an error. */
  datatype Fault =
    | UnknownInstruction(op: int)   // not in the branch table: diagnostic, then sys.exit(1)
    | Raised(error: Alu.PyError)    // an exception raised by the ALU
    | BadCharacter(code: int)       // PRA: `chr` raises for a code outside 0..0x10FFFF

  /**
   * The list `self.ram`, as one value. A machine's RAM is rebuilt only by the handlers
   * that write to it, which keeps the proofs about the others small.
   */
  datatype Memory = Memory(cells: seq<int>)

  /** The fields of a `CPU` object, plus the fault that ended a run and the printed output. */
  datatype Machine = Machine(
    ram: Memory,
    reg: seq<int>,
    pc: int,
    ir: int,
    mdr: int,
    fl: int,
    halted: bool,
    fault: Option<Fault>,
    out: seq<Printed>)

  predicate WellFormed(m: Machine) {
    |m.ram.cells| == RAM_SIZE && |m.reg| == 8
  }

  /** `CPU.__init__`: zeroed RAM and registers except SP, pc 0, flags clear, not halted. */
  function Initial(): (m: Machine)
    ensures WellFormed(m)
  {
    Machine(Memory(seq(RAM_SIZE, _ => 0)), [0, 0, 0, 0, 0, 0, 0, SP_INIT], 0, 0, 0, 0, false, None, [])
  }

  // ---------------------------------------------------------------------------
  // Memory

  /** `ram_read`: the cell at an address inside RAM, -1 for any other address. */
  function RamRead(ram: seq<int>, address: int): (v: int)
    requires |ram| == RAM_SIZE
    ensures 0 <= address < RAM_SIZE ==> v == ram[address]
    ensures !(0 <= address < RAM_SIZE) ==> v == -1
  {
    if 0 <= address < |ram| then ram[address] else -1
  }

  /** `ram_write`: stores the unmasked value at an address inside RAM; any other address changes nothing. */
  function RamWrite(ram: seq<int>, address: int, value: int): (r: seq<int>)
    requires |ram| == RAM_SIZE
    ensures |r| == RAM_SIZE
    ensures forall i :: 0 <= i < RAM_SIZE ==> r[i] == if i == address then value else ram[i]
  {
    if 0 <= address < |ram| then ram[address := value] else ram
  }

  // ---------------------------------------------------------------------------
  // Derived fields

  /** The `sp` property getter. */
  function Sp(m: Machine): int
    requires WellFormed(m)
  {
    m.reg[SP]
  }

  /** The `sp` property setter: `reg[7] = a & 0xFF`, which is a modulo 256. */
  function SetSp(m: Machine, a: int): (r: Machine)
    requires WellFormed(m)
    ensures WellFormed(r)
    ensures r == m.(reg := m.reg[SP := a % 256])
    ensures 0 <= r.reg[SP] < 256
  {
    assert PyInt.Pow2(8) == 256;
    PyInt.AndLowMask(a, 8);
    m.(reg := m.reg[SP := PyInt.And(a, 0xFF)])
  }

  /** The `operand_a` property: the byte after the opcode. */
  function OperandA(m: Machine): int
    requires WellFormed(m)
  {
    RamRead(m.ram.cells, m.pc + 1)
  }

  /** The `operand_b` property: the second byte after the opcode. */
  function OperandB(m: Machine): int
    requires WellFormed(m)
  {
    RamRead(m.ram.cells, m.pc + 2)
  }

  /**
   * `instruction_size`: bits 7-6 of the opcode (the operand count) plus one, written
   * with division; InstructionSizeMasks shows it is the source's `((ir >> 6) & 0b11) + 1`.
   */
  function InstructionSize(ir: int): (size: int)
    ensures 1 <= size <= 4
  {
    (ir / 64) % 4 + 1
  }

  /** `((ir >> 6) & 0b11) + 1` is the size above, for every integer in `ir`. */
  lemma InstructionSizeMasks(ir: int)
    ensures InstructionSize(ir) == PyInt.And(PyInt.Shr(ir, 6), 0x3) + 1
  {
    assert PyInt.Pow2(6) == 64 && PyInt.Pow2(2) == 4;
    PyInt.ShrIsDiv(ir, 6);
    PyInt.AndLowMask(PyInt.Shr(ir, 6), 2);
  }

  /**
   * `instruction_sets_pc`: bit 4 of the opcode, written with division; SetsPcMasks
   * shows it is the source's `((ir >> 4) & 0b0001) == 1`.
   */
  function SetsPc(ir: int): bool {
    (ir / 16) % 2 == 1
  }

  /** `((ir >> 4) & 0b0001) == 1` holds exactly when bit 4 of `ir` is set, and that is SetsPc. */
  lemma SetsPcMasks(ir: int)
    ensures SetsPc(ir) <==> PyInt.And(PyInt.Shr(ir, 4), 0x1) == 1
    ensures SetsPc(ir) <==> PyInt.Bit(ir, 4)
  {
    assert PyInt.Pow2(4) == 16 && PyInt.Pow2(1) == 2;
    PyInt.ShrIsDiv(ir, 4);
    PyInt.AndLowMask(PyInt.Shr(ir, 4), 1);
    PyInt.ShrBit(ir, 4, 0);
  }

  // ---------------------------------------------------------------------------
  // Handlers. Each reads its operands relative to `pc`, the address of the opcode.

  /*
   * What the model needs before it runs a handler is each handler's precondition: the
   * operands it uses as register numbers are in 0..7 (no negative-index aliasing), ST's
   * target is inside RAM and a DIV divides by zero (any other DIV stores a float).
   */

  /** Both operand bytes name registers. */
  predicate RegisterOperands(m: Machine)
    requires WellFormed(m)
  {
    Alu.IsReg(OperandA(m)) && Alu.IsReg(OperandB(m))
  }

  /** `alu(op, reg_a, reg_b)` on the machine: a raised exception becomes the fault. */
  function AluStep(op: Alu.AluOp, a: int, b: int, m: Machine): (r: Machine)
    requires WellFormed(m) && Alu.IsReg(a) && (Alu.ReadsRegB(op) ==> Alu.IsReg(b))
    requires op == Alu.Div ==> m.reg[b] == 0
    ensures WellFormed(r)
    ensures r.ram == m.ram && r.pc == m.pc && r.ir == m.ir && r.mdr == m.mdr
    ensures r.halted == m.halted && r.out == m.out
  {
    match Alu.Apply(op, a, b, m.reg, m.fl)
    case Done(reg, fl) => m.(reg := reg, fl := fl)
    case Failed(e) => m.(fault := Some(Raised(e)))
  }

  function ExecuteHlt(m: Machine): (r: Machine)
    requires WellFormed(m)
    ensures WellFormed(r)
  {
    m.(halted := true)
  }

  function ExecuteLdi(m: Machine): (r: Machine)
    requires WellFormed(m) && Alu.IsReg(OperandA(m))
    ensures WellFormed(r)
  {
    m.(reg := m.reg[OperandA(m) := OperandB(m)])
  }

  function ExecutePrn(m: Machine): (r: Machine)
    requires WellFormed(m) && Alu.IsReg(OperandA(m))
    ensures WellFormed(r)
  {
    m.(out := m.out + [Number(m.reg[OperandA(m)])])
  }

  /**
   * `execute_PUSH`: `sp -= 1`, then the operand register is read (R7 already holds the
   * new SP) and written at the new SP.
   */
  function ExecutePush(m: Machine): (r: Machine)
    requires WellFormed(m) && Alu.IsReg(OperandA(m))
    ensures WellFormed(r)
    ensures var s := (Sp(m) - 1) % 256;
      && r.reg == m.reg[SP := s]
      && r.mdr == (if OperandA(m) == SP then s else m.reg[OperandA(m)])
      && r.ram.cells == m.ram.cells[s := r.mdr]
    ensures r.pc == m.pc && r.ir == m.ir && r.fl == m.fl
    ensures r.halted == m.halted && r.fault == m.fault && r.out == m.out
  {
    var m1 := SetSp(m, Sp(m) - 1);
    var m2 := m1.(mdr := m1.reg[OperandA(m1)]);
    m2.(ram := Memory(RamWrite(m2.ram.cells, Sp(m2), m2.mdr)))
  }

  /**
   * `execute_POP`: the cell at SP goes to the operand register, then `sp += 1` (from the
   * popped value when the operand is R7).
   */
  function ExecutePop(m: Machine): (r: Machine)
    requires WellFormed(m) && Alu.IsReg(OperandA(m))
    ensures WellFormed(r)
    ensures var v := RamRead(m.ram.cells, Sp(m));
      var a := OperandA(m);
      && r.mdr == v
      && r.reg == m.reg[a := v][SP := ((if a == SP then v else Sp(m)) + 1) % 256]
    ensures r.ram == m.ram && r.pc == m.pc && r.ir == m.ir && r.fl == m.fl
    ensures r.halted == m.halted && r.fault == m.fault && r.out == m.out
  {
    var m1 := m.(mdr := RamRead(m.ram.cells, Sp(m)));
    var m2 := m1.(reg := m1.reg[OperandA(m1) := m1.mdr]);
    SetSp(m2, Sp(m2) + 1)
  }

  /** `execute_ST`: the raw list store `ram[reg[a]] = reg[b]`. */
  function ExecuteSt(m: Machine): (r: Machine)
    requires WellFormed(m) && RegisterOperands(m) && 0 <= m.reg[OperandA(m)] < RAM_SIZE
    ensures WellFormed(r)
  {
    m.(ram := Memory(m.ram.cells[m.reg[OperandA(m)] := m.reg[OperandB(m)]]))
  }

  /** The operand byte of CALL as `execute_CALL` reads it: after the return address is pushed. */
  function CallOperand(m: Machine): int
    requires WellFormed(m)
  {
    RamRead(RamWrite(m.ram.cells, (Sp(m) - 1) % 256, m.pc + InstructionSize(m.ir)), m.pc + 1)
  }

  /**
   * `execute_CALL`: `sp -= 1`, the return address `pc + instruction_size` is written at
   * the new SP, then pc jumps to the operand register (the operand byte is read after
   * the push).
   */
  function ExecuteCall(m: Machine): (r: Machine)
    requires WellFormed(m) && Alu.IsReg(CallOperand(m))
    ensures WellFormed(r)
    ensures var s := (Sp(m) - 1) % 256;
      && r.reg == m.reg[SP := s]
      && r.ram.cells == m.ram.cells[s := m.pc + InstructionSize(m.ir)]
      && r.pc == r.reg[CallOperand(m)]
    ensures r.ir == m.ir && r.mdr == m.mdr && r.fl == m.fl
    ensures r.halted == m.halted && r.fault == m.fault && r.out == m.out
  {
    var m1 := SetSp(m, Sp(m) - 1);
    var m2 := m1.(ram := Memory(RamWrite(m1.ram.cells, Sp(m1), m1.pc + InstructionSize(m1.ir))));
    m2.(pc := m2.reg[OperandA(m2)])
  }

  /** `execute_RET`: pc is the cell at SP, then `sp += 1`. */
  function ExecuteRet(m: Machine): (r: Machine)
    requires WellFormed(m)
    ensures WellFormed(r)
    ensures r.pc == RamRead(m.ram.cells, Sp(m))
    ensures r.reg == m.reg[SP := (Sp(m) + 1) % 256]
    ensures r.ram == m.ram && r.ir == m.ir && r.mdr == m.mdr && r.fl == m.fl
    ensures r.halted == m.halted && r.fault == m.fault && r.out == m.out
  {
    var m1 := m.(pc := RamRead(m.ram.cells, Sp(m)));
    SetSp(m1, Sp(m1) + 1)
  }

  function ExecuteJmp(m: Machine): (r: Machine)
    requires WellFormed(m) && Alu.IsReg(OperandA(m))
    ensures WellFormed(r)
  {
    m.(pc := m.reg[OperandA(m)])
  }

  /** `execute_JEQ`: jump when `fl == 0b00000001`, otherwise `pc += 2`. */
  function ExecuteJeq(m: Machine): (r: Machine)
    requires WellFormed(m) && (m.fl == Alu.FL_EQUAL ==> Alu.IsReg(OperandA(m)))
    ensures WellFormed(r)
  {
    if m.fl == Alu.FL_EQUAL then ExecuteJmp(m) else m.(pc := m.pc + 2)
  }

  /** `execute_JNE`: jump when `fl != 0b00000001`, otherwise `pc += 2`. */
  function ExecuteJne(m: Machine): (r: Machine)
    requires WellFormed(m) && (m.fl != Alu.FL_EQUAL ==> Alu.IsReg(OperandA(m)))
    ensures WellFormed(r)
  {
    if m.fl != Alu.FL_EQUAL then ExecuteJmp(m) else m.(pc := m.pc + 2)
  }

  /** `execute_PRA`: `chr(reg[a])`, which raises outside 0..0x10FFFF. */
  function ExecutePra(m: Machine): (r: Machine)
    requires WellFormed(m) && Alu.IsReg(OperandA(m))
    ensures WellFormed(r)
  {
    var v := m.reg[OperandA(m)];
    if 0 <= v <= MAX_CODE_POINT then m.(out := m.out + [Character(v)])
    else m.(fault := Some(BadCharacter(v)))
  }

  /** `execute_AST`: a string of `reg[a]` stars (`range` of a negative count is empty). */
  function ExecuteAst(m: Machine): (r: Machine)
    requires WellFormed(m) && Alu.IsReg(OperandA(m))
    ensures WellFormed(r)
  {
    var n := m.reg[OperandA(m)];
    m.(out := m.out + [Stars(seq(if n < 0 then 0 else n, _ => '*'))])
  }

  function ExecuteMul(m: Machine): (r: Machine)
    requires WellFormed(m) && RegisterOperands(m)
    ensures WellFormed(r)
  {
    AluStep(Alu.Mul, OperandA(m), OperandB(m), m)
  }

  function ExecuteAdd(m: Machine): (r: Machine)
    requires WellFormed(m) && RegisterOperands(m)
    ensures WellFormed(r)
  {
    AluStep(Alu.Add, OperandA(m), OperandB(m), m)
  }

  function ExecuteSub(m: Machine): (r: Machine)
    requires WellFormed(m) && RegisterOperands(m)
    ensures WellFormed(r)
  {
    AluStep(Alu.Sub, OperandA(m), OperandB(m), m)
  }

  /** `execute_DIV`, modelled only for a zero divisor. */
  function ExecuteDiv(m: Machine): (r: Machine)
    requires WellFormed(m) && RegisterOperands(m) && m.reg[OperandB(m)] == 0
    ensures WellFormed(r)
  {
    AluStep(Alu.Div, OperandA(m), OperandB(m), m)
  }

  function ExecuteMod(m: Machine): (r: Machine)
    requires WellFormed(m) && RegisterOperands(m)
    ensures WellFormed(r)
  {
    AluStep(Alu.Mod, OperandA(m), OperandB(m), m)
  }

  function ExecuteOr(m: Machine): (r: Machine)
    requires WellFormed(m) && RegisterOperands(m)
    ensures WellFormed(r)
  {
    AluStep(Alu.Or, OperandA(m), OperandB(m), m)
  }

  function ExecuteXor(m: Machine): (r: Machine)
    requires WellFormed(m) && RegisterOperands(m)
    ensures WellFormed(r)
  {
    AluStep(Alu.Xor, OperandA(m), OperandB(m), m)
  }

  /** `execute_NOT` passes operand b too; the ALU ignores it. */
  function ExecuteNot(m: Machine): (r: Machine)
    requires WellFormed(m) && Alu.IsReg(OperandA(m))
    ensures WellFormed(r)
  {
    AluStep(Alu.Not, OperandA(m), OperandB(m), m)
  }

  function ExecuteShl(m: Machine): (r: Machine)
    requires WellFormed(m) && RegisterOperands(m)
    ensures WellFormed(r)
  {
    AluStep(Alu.Shl, OperandA(m), OperandB(m), m)
  }

  function ExecuteShr(m: Machine): (r: Machine)
    requires WellFormed(m) && RegisterOperands(m)
    ensures WellFormed(r)
  {
    AluStep(Alu.Shr, OperandA(m), OperandB(m), m)
  }

  /** `execute_ADDI` calls the ALU with "SHR", not "ADDI". */
  function ExecuteAddi(m: Machine): (r: Machine)
    requires WellFormed(m) && RegisterOperands(m)
    ensures WellFormed(r)
  {
    AluStep(Alu.Shr, OperandA(m), OperandB(m), m)
  }

  function ExecuteAnd(m: Machine): (r: Machine)
    requires WellFormed(m) && RegisterOperands(m)
    ensures WellFormed(r)
  {
    AluStep(Alu.And, OperandA(m), OperandB(m), m)
  }

  function ExecuteCmp(m: Machine): (r: Machine)
    requires WellFormed(m) && RegisterOperands(m)
    ensures WellFormed(r)
  {
    AluStep(Alu.Cmp, OperandA(m), OperandB(m), m)
  }

  // ---------------------------------------------------------------------------
  // The branch table

  /** The precondition of the handler the branch table holds for `op`, as that handler states it. */
  predicate HandlerReady(op: int, m: Machine)
    requires WellFormed(m)
  {
    if op == HLT || op == RET then true
    else if op == CALL then Alu.IsReg(CallOperand(m))
    else if op == JEQ then m.fl == Alu.FL_EQUAL ==> Alu.IsReg(OperandA(m))
    else if op == JNE then m.fl != Alu.FL_EQUAL ==> Alu.IsReg(OperandA(m))
    else if op == ST then RegisterOperands(m) && 0 <= m.reg[OperandA(m)] < RAM_SIZE
    else if op == DIV then RegisterOperands(m) && m.reg[OperandB(m)] == 0
    else if op == LDI || op == PRN || op == PUSH || op == POP || op == JMP || op == PRA
      || op == AST || op == NOT then Alu.IsReg(OperandA(m))
    else RegisterOperands(m)
  }

  /**
   * `self.branchtable[op]()`: runs the bound `execute_*` method the table holds for `op`.
   * Every handler keeps the sizes of RAM and the register file and leaves ir alone.
   */
  function Execute(op: int, m: Machine): (r: Machine)
    requires WellFormed(m) && InBranchTable(op) && HandlerReady(op, m)
    ensures WellFormed(r) && r.ir == m.ir
  {
    if op == HLT then ExecuteHlt(m)
    else if op == LDI then ExecuteLdi(m)
    else if op == PRN then ExecutePrn(m)
    else if op == MUL then ExecuteMul(m)
    else if op == PUSH then ExecutePush(m)
    else if op == POP then ExecutePop(m)
    else if op == CALL then ExecuteCall(m)
    else if op == RET then ExecuteRet(m)
    else if op == ADD then ExecuteAdd(m)
    else if op == CMP then ExecuteCmp(m)
    else if op == JMP then ExecuteJmp(m)
    else if op == JEQ then ExecuteJeq(m)
    else if op == JNE then ExecuteJne(m)
    else if op == AST then ExecuteAst(m)
    else if op == SUB then ExecuteSub(m)
    else if op == DIV then ExecuteDiv(m)
    else if op == MOD then ExecuteMod(m)
    else if op == OR then ExecuteOr(m)
    else if op == XOR then ExecuteXor(m)
    else if op == NOT then ExecuteNot(m)
    else if op == SHL then ExecuteShl(m)
    else if op == SHR then ExecuteShr(m)
    else if op == ADDI then ExecuteAddi(m)
    else if op == AND then ExecuteAnd(m)
    else if op == PRA then ExecutePra(m)
    else ExecuteSt(m)
  }

  // ---------------------------------------------------------------------------
  // The run loop

  predicate Running(m: Machine) {
    !m.halted && m.fault.None?
  }

  /**
   * The instruction at pc is one the model covers: not IRET, and when the opcode is in
   * the branch table, its handler's precondition holds (an opcode missing from the
   * table is covered: it ends the run).
   */
  predicate CanStep(m: Machine)
    requires WellFormed(m)
  {
    var ir := RamRead(m.ram.cells, m.pc);
    ir != IRET && (InBranchTable(ir) ==> HandlerReady(ir, m.(ir := ir)))
  }

  /**
   * One turn of `while self.halted is False`: fetch into ir, look the opcode up, run
   * the handler, then add `instruction_size` to pc unless bit 4 of the opcode says the
   * handler set pc itself. An unknown opcode ends the run (`sys.exit(1)`); an exception
   * in the handler ends it before pc advances.
   */
  function Step(m: Machine): (r: Machine)
    requires WellFormed(m) && Running(m) && CanStep(m)
    ensures WellFormed(r)
    ensures r.ir == RamRead(m.ram.cells, m.pc)
  {
    var m1 := m.(ir := RamRead(m.ram.cells, m.pc));
    if !InBranchTable(m1.ir) then
      m1.(fault := Some(UnknownInstruction(m1.ir)))
    else
      var m2 := Execute(m1.ir, m1);
      if m2.fault.Some? || SetsPc(m2.ir) then m2
      else m2.(pc := m2.pc + InstructionSize(m2.ir))
  }

  /** Every turn `fuel` turns of the run loop take from `m` is one the model covers. */
  predicate Covered(m: Machine, fuel: nat)
    requires WellFormed(m)
    decreases fuel
  {
    fuel == 0 || !Running(m) || (CanStep(m) && Covered(Step(m), fuel - 1))
  }

  /** `run`, for at most `fuel` turns: it stops early when the machine has halted or faulted. */
  function Run(m: Machine, fuel: nat): (r: Machine)
    requires WellFormed(m) && Covered(m, fuel)
    ensures WellFormed(r)
    decreases fuel
  {
    if fuel == 0 || !Running(m) then m else Run(Step(m), fuel - 1)
  }

  /** A covered run of `fuel` turns from `m` ends in `r`. */
  predicate RunsTo(m: Machine, fuel: nat, r: Machine) {
    WellFormed(m) && Covered(m, fuel) && Run(m, fuel) == r
  }
}
