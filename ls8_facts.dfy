/**
 * Properties of the LS-8 model: the decoder against the opcode table, the run loop,
 * one turn of each instruction, the stack discipline (PUSH/POP, CALL/RET), compare and
 * branch, the ALU handlers, and two complete programs.
 */
module Ls8Facts {
  import opened Wrappers
  import PyInt
  import Alu = Ls8Alu
  import opened Ls8

  // ---------------------------------------------------------------------------
  // Decoder

  /** Among the opcodes of the table (and IRET), bit 4 is set exactly for the control transfers. */
  lemma DecoderTable(op: int)
    requires InBranchTable(op) || op == IRET
    ensures SetsPc(op) <==> op in {CALL, RET, JMP, JEQ, JNE, IRET}
  {
  }

  /**
   * The size the decoder gives each instruction is its opcode byte plus the operands it is
   * encoded with (bits 7-6 of the opcode). Two handlers read past that: NOT's handler also
   * reads the byte at pc + 2, which `alu` ignores, and IRET's pops read pc + 1.
   */
  lemma InstructionSizes(op: int)
    requires InBranchTable(op) || op == IRET
    ensures InstructionSize(op) == 1 <==> op in {HLT, RET, IRET}
    ensures InstructionSize(op) == 2 <==>
      op in {PRN, PUSH, POP, CALL, JMP, JEQ, JNE, AST, NOT, PRA}
    ensures InstructionSize(op) == 3 <==>
      op in {LDI, MUL, ADD, CMP, SUB, DIV, MOD, OR, XOR, SHL, SHR, ADDI, AND, ST}
  {
  }

  // ---------------------------------------------------------------------------
  // Memory

  /** Reading after a write sees the written value at that address and the old contents elsewhere. */
  lemma ReadAfterWrite(ram: seq<int>, a: int, v: int, b: int)
    requires |ram| == RAM_SIZE
    ensures RamRead(RamWrite(ram, a, v), b) == if a == b && 0 <= a < RAM_SIZE then v else RamRead(ram, b)
  {
  }

  // ---------------------------------------------------------------------------
  // The run loop

  predicate At(m: Machine, op: int)
    requires WellFormed(m)
  {
    Running(m) && 0 <= m.pc < RAM_SIZE && m.ram.cells[m.pc] == op
  }

  /** The machine is running, the opcode at pc is `op` and its `n` operand bytes lie inside RAM. */
  predicate Fetches(m: Machine, op: int, n: nat)
    requires WellFormed(m)
  {
    At(m, op) && m.pc + n < RAM_SIZE
  }

  /** A handler whose opcode has bit 4 clear leaves pc where it was. */
  lemma HandlerKeepsPc(op: int, m: Machine)
    requires WellFormed(m) && InBranchTable(op) && !SetsPc(op) && HandlerReady(op, m)
    ensures Execute(op, m).pc == m.pc
  {
  }

  /**
   * The run loop advances pc by exactly `instruction_size` after a handler whose opcode
   * has bit 4 clear, and leaves it where the handler put it when bit 4 is set.
   */
  lemma StepAdvance(m: Machine)
    requires WellFormed(m) && Running(m) && CanStep(m)
    requires InBranchTable(RamRead(m.ram.cells, m.pc)) && Step(m).fault.None?
    ensures var op := RamRead(m.ram.cells, m.pc);
      if SetsPc(op) then Step(m).pc == Execute(op, m.(ir := op)).pc
      else Step(m).pc == m.pc + InstructionSize(op)
  {
    var op := RamRead(m.ram.cells, m.pc);
    if !SetsPc(op) {
      HandlerKeepsPc(op, m.(ir := op));
    }
  }

  /** HLT sets `halted` and advances pc by one; the run loop then stops. */
  lemma HaltStep(m: Machine, fuel: nat)
    requires WellFormed(m) && At(m, HLT)
    ensures CanStep(m)
    ensures Step(m) == m.(ir := HLT, halted := true, pc := m.pc + 1)
    ensures RunsTo(Step(m), fuel, Step(m))
  {
    var m1 := m.(ir := HLT);
    assert WellFormed(m1) && Execute(HLT, m1) == ExecuteHlt(m1);
    assert InstructionSize(HLT) == 1 && !SetsPc(HLT);
  }

  /** An opcode missing from the branch table ends the run with a fault and changes nothing else. */
  lemma UnknownStep(m: Machine, fuel: nat)
    requires WellFormed(m) && Running(m) && !InBranchTable(RamRead(m.ram.cells, m.pc))
    requires RamRead(m.ram.cells, m.pc) != IRET
    ensures CanStep(m)
    ensures var op := RamRead(m.ram.cells, m.pc);
      Step(m) == m.(ir := op, fault := Some(UnknownInstruction(op)))
    ensures RunsTo(Step(m), fuel, Step(m))
  {
  }

  /** One turn of a covered run is a step followed by the rest of the run. */
  lemma RunStep(m: Machine, fuel: nat, r: Machine)
    requires WellFormed(m) && fuel > 0 && Running(m) && CanStep(m) && RunsTo(Step(m), fuel - 1, r)
    ensures RunsTo(m, fuel, r)
  {
  }

  // ---------------------------------------------------------------------------
  // One instruction

  /** `LDI a v` stores the operand byte itself in `reg[a]` and advances pc by 3. */
  lemma LdiStep(m: Machine)
    requires WellFormed(m) && Fetches(m, LDI, 2) && Alu.IsReg(m.ram.cells[m.pc + 1])
    ensures CanStep(m)
    ensures Step(m) == m.(ir := LDI, reg := m.reg[m.ram.cells[m.pc + 1] := m.ram.cells[m.pc + 2]], pc := m.pc + 3)
  {
    var m1 := m.(ir := LDI);
    assert Alu.IsReg(OperandA(m1)) && Execute(LDI, m1) == ExecuteLdi(m1);
    assert InstructionSize(LDI) == 3 && !SetsPc(LDI);
  }

  /** `PRN a` prints the number in `reg[a]` and advances pc by 2. */
  lemma PrnStep(m: Machine)
    requires WellFormed(m) && Fetches(m, PRN, 1) && Alu.IsReg(m.ram.cells[m.pc + 1])
    ensures CanStep(m)
    ensures Step(m) == m.(ir := PRN, out := m.out + [Number(m.reg[m.ram.cells[m.pc + 1]])], pc := m.pc + 2)
  {
    var m1 := m.(ir := PRN);
    assert Alu.IsReg(OperandA(m1)) && Execute(PRN, m1) == ExecutePrn(m1);
    assert InstructionSize(PRN) == 2 && !SetsPc(PRN);
  }

  /**
   * `PUSH a`: SP drops by one modulo 256, and `reg[a]` (read after SP changed) is stored
   * at the new SP and in mdr; pc advances by 2.
   */
  lemma PushStep(m: Machine)
    requires WellFormed(m) && Fetches(m, PUSH, 1) && Alu.IsReg(m.ram.cells[m.pc + 1])
    ensures CanStep(m)
    ensures var s := (Sp(m) - 1) % 256;
      var a := m.ram.cells[m.pc + 1];
      var v := if a == SP then s else m.reg[a];
      Step(m) == m.(ir := PUSH, reg := m.reg[SP := s], mdr := v, ram := Memory(m.ram.cells[s := v]), pc := m.pc + 2)
  {
    var m1 := m.(ir := PUSH);
    assert Alu.IsReg(OperandA(m1)) && Execute(PUSH, m1) == ExecutePush(m1);
    assert InstructionSize(PUSH) == 2 && !SetsPc(PUSH);
  }

  /**
   * `POP a`: the cell at SP goes to `reg[a]` and mdr, then SP rises by one modulo 256
   * (from the popped value when `a` is SP); pc advances by 2.
   */
  lemma PopStep(m: Machine)
    requires WellFormed(m) && Fetches(m, POP, 1) && Alu.IsReg(m.ram.cells[m.pc + 1])
    ensures CanStep(m)
    ensures var v := RamRead(m.ram.cells, Sp(m));
      var a := m.ram.cells[m.pc + 1];
      Step(m) == m.(ir := POP, mdr := v, reg := m.reg[a := v][SP := ((if a == SP then v else Sp(m)) + 1) % 256],
                    pc := m.pc + 2)
  {
    var m1 := m.(ir := POP);
    assert Alu.IsReg(OperandA(m1)) && Execute(POP, m1) == ExecutePop(m1);
    assert InstructionSize(POP) == 2 && !SetsPc(POP);
  }

  /**
   * `CALL a`: SP drops by one modulo 256, the address after the CALL (pc + 2) is stored
   * at the new SP, and pc becomes the register named by the operand byte as read after
   * that store.
   */
  lemma CallStep(m: Machine)
    requires WellFormed(m) && Fetches(m, CALL, 1) && Alu.IsReg(CallOperand(m.(ir := CALL)))
    ensures CanStep(m)
    ensures var s := (Sp(m) - 1) % 256;
      var reg := m.reg[SP := s];
      Step(m) == m.(ir := CALL, reg := reg, ram := Memory(m.ram.cells[s := m.pc + 2]), pc := reg[CallOperand(m.(ir := CALL))])
  {
    var m1 := m.(ir := CALL);
    assert Alu.IsReg(CallOperand(m1)) && Execute(CALL, m1) == ExecuteCall(m1);
    assert InstructionSize(CALL) == 2 && SetsPc(CALL);
  }

  /** `RET`: pc becomes the cell at SP, then SP rises by one modulo 256. */
  lemma RetStep(m: Machine)
    requires WellFormed(m) && At(m, RET)
    ensures CanStep(m)
    ensures Step(m) == m.(ir := RET, pc := RamRead(m.ram.cells, Sp(m)), reg := m.reg[SP := (Sp(m) + 1) % 256])
  {
    var m1 := m.(ir := RET);
    assert WellFormed(m1) && Execute(RET, m1) == ExecuteRet(m1);
    assert SetsPc(RET);
  }

  /** `ST a b` stores `reg[b]` at the address in `reg[a]` and advances pc by 3. */
  lemma StStep(m: Machine)
    requires WellFormed(m) && Fetches(m, ST, 2)
    requires Alu.IsReg(m.ram.cells[m.pc + 1]) && Alu.IsReg(m.ram.cells[m.pc + 2])
    requires 0 <= m.reg[m.ram.cells[m.pc + 1]] < RAM_SIZE
    ensures CanStep(m)
    ensures var a, b := m.ram.cells[m.pc + 1], m.ram.cells[m.pc + 2];
      Step(m) == m.(ir := ST, ram := Memory(m.ram.cells[m.reg[a] := m.reg[b]]), pc := m.pc + 3)
  {
    var m1 := m.(ir := ST);
    assert RegisterOperands(m1) && 0 <= m1.reg[OperandA(m1)] < RAM_SIZE;
    assert Execute(ST, m1) == ExecuteSt(m1);
    assert InstructionSize(ST) == 3 && !SetsPc(ST);
  }

  /**
   * `PRA a` prints the character with code `reg[a]` and advances pc by 2; a code outside
   * 0..0x10FFFF ends the run with a fault where it was.
   */
  lemma PraStep(m: Machine)
    requires WellFormed(m) && Fetches(m, PRA, 1) && Alu.IsReg(m.ram.cells[m.pc + 1])
    ensures CanStep(m)
    ensures var v := m.reg[m.ram.cells[m.pc + 1]];
      Step(m) == if 0 <= v <= MAX_CODE_POINT then m.(ir := PRA, out := m.out + [Character(v)], pc := m.pc + 2)
                 else m.(ir := PRA, fault := Some(BadCharacter(v)))
  {
    var m1 := m.(ir := PRA);
    assert Alu.IsReg(OperandA(m1)) && Execute(PRA, m1) == ExecutePra(m1);
    assert InstructionSize(PRA) == 2 && !SetsPc(PRA);
  }

  /** `AST a` prints a row of `reg[a]` stars (none for a negative count) and advances pc by 2. */
  lemma AstStep(m: Machine)
    requires WellFormed(m) && Fetches(m, AST, 1) && Alu.IsReg(m.ram.cells[m.pc + 1])
    ensures CanStep(m)
    ensures var n := m.reg[m.ram.cells[m.pc + 1]];
      var row := Step(m).out[|m.out|].text;
      && Step(m) == m.(ir := AST, out := m.out + [Stars(row)], pc := m.pc + 2)
      && |row| == (if n < 0 then 0 else n)
      && forall i :: 0 <= i < |row| ==> row[i] == '*'
  {
    var m1 := m.(ir := AST);
    assert Alu.IsReg(OperandA(m1)) && Execute(AST, m1) == ExecuteAst(m1);
    assert InstructionSize(AST) == 2 && !SetsPc(AST);
  }

  // ---------------------------------------------------------------------------
  // Stack discipline

  /** The modular identity behind a decrement and an increment of SP through the `& 0xFF` setter. */
  lemma SpRoundTrip(sp: int)
    ensures ((sp - 1) % 256 + 1) % 256 == sp % 256
    ensures 0 <= sp < 256 ==> sp % 256 == sp
  {
  }

  /**
   * `PUSH r` followed by `POP r2` copies the old `reg[r]` into `reg[r2]`, leaves SP at
   * its old value modulo 256 (exactly its old value when it was a byte) and changes no
   * other register and no flag. The pushed cell must not be one of the POP instruction's bytes.
   */
  lemma PushThenPop(m: Machine, r: int, r2: int)
    requires WellFormed(m) && Fetches(m, PUSH, 3)
    requires m.ram.cells[m.pc + 1] == r && m.ram.cells[m.pc + 2] == POP && m.ram.cells[m.pc + 3] == r2
    requires Alu.IsReg(r) && Alu.IsReg(r2) && r != SP && r2 != SP
    requires (Sp(m) - 1) % 256 != m.pc + 2 && (Sp(m) - 1) % 256 != m.pc + 3
    ensures CanStep(m) && Running(Step(m)) && CanStep(Step(m))
    ensures Step(Step(m)).reg == m.reg[r2 := m.reg[r]][SP := m.reg[SP] % 256]
    ensures 0 <= m.reg[SP] < 256 ==> Step(Step(m)).reg[SP] == m.reg[SP]
    ensures Step(Step(m)).pc == m.pc + 4 && Step(Step(m)).fl == m.fl
  {
    PushStep(m);
    PopAfterPush(m, Step(m), r, r2);
  }

  /** The POP half of PushThenPop, on the machine the PUSH left. */
  lemma PopAfterPush(m: Machine, m1: Machine, r: int, r2: int)
    requires WellFormed(m) && Fetches(m, PUSH, 3)
    requires m.ram.cells[m.pc + 2] == POP && m.ram.cells[m.pc + 3] == r2
    requires Alu.IsReg(r) && Alu.IsReg(r2) && r != SP && r2 != SP
    requires (Sp(m) - 1) % 256 != m.pc + 2 && (Sp(m) - 1) % 256 != m.pc + 3
    requires var s := (Sp(m) - 1) % 256;
      m1 == m.(ir := PUSH, reg := m.reg[SP := s], mdr := m.reg[r], ram := Memory(m.ram.cells[s := m.reg[r]]), pc := m.pc + 2)
    ensures WellFormed(m1) && Running(m1) && CanStep(m1)
    ensures Step(m1).reg == m.reg[r2 := m.reg[r]][SP := m.reg[SP] % 256]
    ensures 0 <= m.reg[SP] < 256 ==> Step(m1).reg[SP] == m.reg[SP]
    ensures Step(m1).pc == m.pc + 4 && Step(m1).fl == m.fl
  {
    var s := (Sp(m) - 1) % 256;
    assert m1.ram.cells[m1.pc] == POP && m1.ram.cells[m1.pc + 1] == r2;
    PopStep(m1);
    assert RamRead(m1.ram.cells, Sp(m1)) == m.reg[r];
    SpRoundTrip(Sp(m));
  }

  /**
   * `PUSH R7` followed by `POP r2` is no round trip: `execute_PUSH` reads `reg[operand_a]`
   * after it has moved SP, so the value pushed and popped into `reg[r2]` is the new SP,
   * one below the old one modulo 256. For a byte SP this differs from the old R7.
   */
  lemma PushSpThenPop(m: Machine, r2: int)
    requires WellFormed(m) && Fetches(m, PUSH, 3)
    requires m.ram.cells[m.pc + 1] == SP && m.ram.cells[m.pc + 2] == POP && m.ram.cells[m.pc + 3] == r2
    requires Alu.IsReg(r2) && r2 != SP
    requires (Sp(m) - 1) % 256 != m.pc + 2 && (Sp(m) - 1) % 256 != m.pc + 3
    ensures CanStep(m) && Running(Step(m)) && CanStep(Step(m))
    ensures Step(Step(m)).reg == m.reg[r2 := (Sp(m) - 1) % 256][SP := m.reg[SP] % 256]
    ensures 0 <= m.reg[SP] < 256 ==> Step(Step(m)).reg[r2] != m.reg[SP]
    ensures Step(Step(m)).pc == m.pc + 4 && Step(Step(m)).fl == m.fl
  {
    PushStep(m);
    PopAfterPushSp(m, Step(m), r2);
  }

  /** The POP half of PushSpThenPop, on the machine the PUSH left. */
  lemma PopAfterPushSp(m: Machine, m1: Machine, r2: int)
    requires WellFormed(m) && Fetches(m, PUSH, 3)
    requires m.ram.cells[m.pc + 2] == POP && m.ram.cells[m.pc + 3] == r2
    requires Alu.IsReg(r2) && r2 != SP
    requires (Sp(m) - 1) % 256 != m.pc + 2 && (Sp(m) - 1) % 256 != m.pc + 3
    requires var s := (Sp(m) - 1) % 256;
      m1 == m.(ir := PUSH, reg := m.reg[SP := s], mdr := s, ram := Memory(m.ram.cells[s := s]), pc := m.pc + 2)
    ensures WellFormed(m1) && Running(m1) && CanStep(m1)
    ensures Step(m1).reg == m.reg[r2 := (Sp(m) - 1) % 256][SP := m.reg[SP] % 256]
    ensures 0 <= m.reg[SP] < 256 ==> Step(m1).reg[r2] != m.reg[SP]
    ensures Step(m1).pc == m.pc + 4 && Step(m1).fl == m.fl
  {
    var s := (Sp(m) - 1) % 256;
    assert m1.ram.cells[m1.pc] == POP && m1.ram.cells[m1.pc + 1] == r2;
    PopStep(m1);
    assert RamRead(m1.ram.cells, Sp(m1)) == s;
    SpRoundTrip(Sp(m));
  }

  /**
   * `CALL r` pushes the address after the CALL (pc + 2) and jumps to `reg[r]`; when the
   * instruction there is RET, the next step returns to pc + 2 with SP restored modulo
   * 256. The pushed cell must be neither CALL's operand byte nor the RET instruction.
   */
  lemma CallThenRet(m: Machine, r: int)
    requires WellFormed(m) && Fetches(m, CALL, 1)
    requires m.ram.cells[m.pc + 1] == r && Alu.IsReg(r) && r != SP
    requires 0 <= m.reg[r] < RAM_SIZE && m.ram.cells[m.reg[r]] == RET
    requires (Sp(m) - 1) % 256 != m.pc + 1 && (Sp(m) - 1) % 256 != m.reg[r]
    ensures CanStep(m)
    ensures var s := (Sp(m) - 1) % 256;
      && Step(m) == m.(ir := CALL, reg := m.reg[SP := s], ram := Memory(m.ram.cells[s := m.pc + 2]), pc := m.reg[r])
    ensures Running(Step(m)) && CanStep(Step(m))
    ensures Step(Step(m)).pc == m.pc + 2
    ensures Step(Step(m)).reg == m.reg[SP := m.reg[SP] % 256]
    ensures 0 <= m.reg[SP] < 256 ==> Step(Step(m)).reg == m.reg
  {
    assert CallOperand(m.(ir := CALL)) == r;
    CallStep(m);
    RetAfterCall(m, Step(m), r);
  }

  /** The RET half of CallThenRet, on the machine the CALL left. */
  lemma RetAfterCall(m: Machine, m1: Machine, r: int)
    requires WellFormed(m) && Fetches(m, CALL, 1)
    requires Alu.IsReg(r) && r != SP
    requires 0 <= m.reg[r] < RAM_SIZE && m.ram.cells[m.reg[r]] == RET
    requires (Sp(m) - 1) % 256 != m.reg[r]
    requires var s := (Sp(m) - 1) % 256;
      m1 == m.(ir := CALL, reg := m.reg[SP := s], ram := Memory(m.ram.cells[s := m.pc + 2]), pc := m.reg[r])
    ensures WellFormed(m1) && Running(m1) && CanStep(m1)
    ensures Step(m1).pc == m.pc + 2
    ensures Step(m1).reg == m.reg[SP := m.reg[SP] % 256]
    ensures 0 <= m.reg[SP] < 256 ==> Step(m1).reg == m.reg
  {
    RetStep(m1);
    SpRoundTrip(Sp(m));
  }

  /** The stack instructions always leave SP inside 0..255. */
  lemma StackKeepsSpByte(m: Machine)
    requires WellFormed(m) && Running(m) && CanStep(m)
    requires RamRead(m.ram.cells, m.pc) in {PUSH, POP, CALL, RET}
    ensures 0 <= Step(m).reg[SP] < 256
  {
    var op := RamRead(m.ram.cells, m.pc);
    var m1 := m.(ir := op);
    if op == PUSH {
      assert Execute(PUSH, m1) == ExecutePush(m1);
    } else if op == POP {
      assert Execute(POP, m1) == ExecutePop(m1);
    } else if op == CALL {
      assert Execute(CALL, m1) == ExecuteCall(m1);
    } else {
      assert Execute(RET, m1) == ExecuteRet(m1);
    }
  }

  // ---------------------------------------------------------------------------
  // Compare and branch

  /**
   * `CMP a b` sets `fl` to exactly one of 1 (equal), 2 (greater) or 4 (less) by the
   * ordering of the two registers, changes no register, RAM or output, and advances pc by 3.
   */
  lemma CmpStep(m: Machine)
    requires WellFormed(m) && Fetches(m, CMP, 2)
    requires Alu.IsReg(m.ram.cells[m.pc + 1]) && Alu.IsReg(m.ram.cells[m.pc + 2])
    ensures CanStep(m)
    ensures var x, y := m.reg[m.ram.cells[m.pc + 1]], m.reg[m.ram.cells[m.pc + 2]];
      var r := Step(m);
      && (r.fl == Alu.FL_EQUAL <==> x == y)
      && (r.fl == Alu.FL_GREATER <==> x > y)
      && (r.fl == Alu.FL_LESS <==> x < y)
      && r.fl in {Alu.FL_EQUAL, Alu.FL_GREATER, Alu.FL_LESS}
    ensures Step(m) == m.(ir := CMP, fl := Step(m).fl, pc := m.pc + 3)
  {
    var m1 := m.(ir := CMP);
    assert RegisterOperands(m1) && Execute(CMP, m1) == ExecuteCmp(m1);
    assert InstructionSize(CMP) == 3 && !SetsPc(CMP);
  }

  /** `JMP a` sets pc to `reg[a]`; the run loop adds nothing. */
  lemma JmpStep(m: Machine)
    requires WellFormed(m) && Fetches(m, JMP, 1) && Alu.IsReg(m.ram.cells[m.pc + 1])
    ensures CanStep(m)
    ensures Step(m) == m.(ir := JMP, pc := m.reg[m.ram.cells[m.pc + 1]])
  {
    var m1 := m.(ir := JMP);
    assert Alu.IsReg(OperandA(m1)) && Execute(JMP, m1) == ExecuteJmp(m1);
    assert SetsPc(JMP);
  }

  /** `JEQ a` jumps to `reg[a]` iff the equal flag is the whole of `fl`, and otherwise moves on by 2. */
  lemma JeqStep(m: Machine)
    requires WellFormed(m) && Fetches(m, JEQ, 1)
    requires m.fl == Alu.FL_EQUAL ==> Alu.IsReg(m.ram.cells[m.pc + 1])
    ensures CanStep(m)
    ensures Step(m) == m.(ir := JEQ, pc := if m.fl == Alu.FL_EQUAL then m.reg[m.ram.cells[m.pc + 1]] else m.pc + 2)
  {
    var m1 := m.(ir := JEQ);
    assert WellFormed(m1) && (m1.fl == Alu.FL_EQUAL ==> Alu.IsReg(OperandA(m1)));
    assert Execute(JEQ, m1) == ExecuteJeq(m1);
    assert SetsPc(JEQ);
  }

  /** `JNE a` is the converse: it jumps iff `fl` is not the equal flag, and otherwise moves on by 2. */
  lemma JneStep(m: Machine)
    requires WellFormed(m) && Fetches(m, JNE, 1)
    requires m.fl != Alu.FL_EQUAL ==> Alu.IsReg(m.ram.cells[m.pc + 1])
    ensures CanStep(m)
    ensures Step(m) == m.(ir := JNE, pc := if m.fl != Alu.FL_EQUAL then m.reg[m.ram.cells[m.pc + 1]] else m.pc + 2)
  {
    var m1 := m.(ir := JNE);
    assert WellFormed(m1) && (m1.fl != Alu.FL_EQUAL ==> Alu.IsReg(OperandA(m1)));
    assert Execute(JNE, m1) == ExecuteJne(m1);
    assert SetsPc(JNE);
  }

  // ---------------------------------------------------------------------------
  // ALU instructions

  /** The opcodes whose handler is a two-register ALU operation writing `reg[a]`. */
  predicate BinaryAluOpcode(op: int) {
    op in {ADD, SUB, MUL, AND, OR, XOR, SHL, SHR, MOD, ADDI}
  }

  /** The operation each of those handlers passes to `alu`: ADDI's handler passes SHR. */
  function AluOpOf(op: int): (aop: Alu.AluOp)
    requires BinaryAluOpcode(op)
    ensures Alu.ReadsRegB(aop) && aop != Alu.Cmp && aop != Alu.Div
  {
    if op == ADD then Alu.Add
    else if op == SUB then Alu.Sub
    else if op == MUL then Alu.Mul
    else if op == AND then Alu.And
    else if op == OR then Alu.Or
    else if op == XOR then Alu.Xor
    else if op == SHL then Alu.Shl
    else if op == MOD then Alu.Mod
    else Alu.Shr
  }

  /** The handler of a binary ALU opcode is `alu` with that opcode's operation on the two operands. */
  lemma AluHandlerIs(op: int, m: Machine)
    requires BinaryAluOpcode(op) && WellFormed(m) && RegisterOperands(m)
    ensures InBranchTable(op) && HandlerReady(op, m)
    ensures Execute(op, m) == AluStep(AluOpOf(op), OperandA(m), OperandB(m), m)
  {
    if op == ADD {
      assert Execute(op, m) == ExecuteAdd(m);
    } else if op == SUB {
      assert Execute(op, m) == ExecuteSub(m);
    } else if op == MUL {
      assert Execute(op, m) == ExecuteMul(m);
    } else if op == AND {
      assert Execute(op, m) == ExecuteAnd(m);
    } else if op == OR {
      assert Execute(op, m) == ExecuteOr(m);
    } else if op == XOR {
      assert Execute(op, m) == ExecuteXor(m);
    } else if op == SHL {
      assert Execute(op, m) == ExecuteShl(m);
    } else if op == MOD {
      assert Execute(op, m) == ExecuteMod(m);
    } else if op == SHR {
      assert Execute(op, m) == ExecuteShr(m);
    } else {
      assert Execute(op, m) == ExecuteAddi(m);
    }
  }

  /** Whether the handler for `op` raises on the second register's value. */
  predicate BinaryRaises(op: int, y: int) {
    ((op == SHL || op == SHR || op == ADDI) && y < 0) || (op == MOD && y == 0)
  }

  /**
   * The unmasked Python value `reg[a] OP reg[b]` each handler computes (ADDI as the source
   * has it: `>>`), written per opcode as a reference table of its own. It is kept apart
   * from `Ls8Alu.Apply` on purpose: BinaryApply checks the ALU arms against it, which
   * deriving it from Apply would turn into a restatement.
   */
  function BinaryValue(op: int, x: int, y: int): int
    requires BinaryAluOpcode(op) && !BinaryRaises(op, y)
  {
    if op == ADD then x + y
    else if op == SUB then x - y
    else if op == MUL then PyInt.Mul(x, y)
    else if op == AND then PyInt.And(x, y)
    else if op == OR then PyInt.Or(x, y)
    else if op == XOR then PyInt.Xor(x, y)
    else if op == SHL then PyInt.Shl(x, y)
    else if op == MOD then PyInt.FloorMod(x, y)
    else PyInt.Shr(x, y)
  }

  /** `alu` with a binary operation raises exactly when BinaryRaises says, and otherwise writes BinaryValue. */
  lemma BinaryApply(op: int, a: int, b: int, reg: seq<int>, fl: int)
    requires BinaryAluOpcode(op) && |reg| == 8 && Alu.IsReg(a) && Alu.IsReg(b)
    ensures var r := Alu.Apply(AluOpOf(op), a, b, reg, fl);
      if BinaryRaises(op, reg[b]) then
        r == Alu.Failed(if op == MOD then Alu.ZeroDivisionError else Alu.ValueError)
      else
        r == Alu.Done(reg[a := BinaryValue(op, reg[a], reg[b])], fl)
  {
  }

  /**
   * Each binary ALU instruction writes only `reg[a]`, with the unmasked integer result,
   * and advances pc by 3; RAM, the flags and the output are unchanged. A negative shift
   * count or a zero modulus raises instead, and the run stops where it was.
   */
  lemma BinaryAluStep(m: Machine)
    requires WellFormed(m) && Running(m) && 0 <= m.pc && m.pc + 2 < RAM_SIZE
    requires BinaryAluOpcode(m.ram.cells[m.pc])
    requires Alu.IsReg(m.ram.cells[m.pc + 1]) && Alu.IsReg(m.ram.cells[m.pc + 2])
    ensures CanStep(m)
    ensures var op, a, b := m.ram.cells[m.pc], m.ram.cells[m.pc + 1], m.ram.cells[m.pc + 2];
      var x, y := m.reg[a], m.reg[b];
      if BinaryRaises(op, y) then
        Step(m) == m.(ir := op, fault := Some(Raised(
          if op == MOD then Alu.ZeroDivisionError else Alu.ValueError)))
      else
        Step(m) == m.(ir := op, reg := m.reg[a := BinaryValue(op, x, y)], pc := m.pc + 3)
  {
    var op, a, b := m.ram.cells[m.pc], m.ram.cells[m.pc + 1], m.ram.cells[m.pc + 2];
    var m1 := m.(ir := op);
    assert OperandA(m1) == a && OperandB(m1) == b;
    AluHandlerIs(op, m1);
    BinaryApply(op, a, b, m.reg, m.fl);
    assert InstructionSize(op) == 3 && !SetsPc(op);
  }

  /** `DIV a b` with a zero divisor raises ZeroDivisionError, and the run stops where it was. */
  lemma DivByZeroStep(m: Machine)
    requires WellFormed(m) && Fetches(m, DIV, 2)
    requires Alu.IsReg(m.ram.cells[m.pc + 1]) && Alu.IsReg(m.ram.cells[m.pc + 2]) && m.reg[m.ram.cells[m.pc + 2]] == 0
    ensures CanStep(m)
    ensures Step(m) == m.(ir := DIV, fault := Some(Raised(Alu.ZeroDivisionError)))
  {
    var m1 := m.(ir := DIV);
    assert RegisterOperands(m1) && m1.reg[OperandB(m1)] == 0;
    assert Execute(DIV, m1) == ExecuteDiv(m1);
  }

  /** NOT writes Python's `~x`, that is -x-1, into `reg[a]`, and advances pc by 2. */
  lemma NotStep(m: Machine)
    requires WellFormed(m) && Fetches(m, NOT, 1) && Alu.IsReg(m.ram.cells[m.pc + 1])
    ensures CanStep(m)
    ensures var a := m.ram.cells[m.pc + 1];
      Step(m) == m.(ir := NOT, reg := m.reg[a := -m.reg[a] - 1], pc := m.pc + 2)
  {
    var m1 := m.(ir := NOT);
    assert Alu.IsReg(OperandA(m1)) && Execute(NOT, m1) == ExecuteNot(m1);
    assert InstructionSize(NOT) == 2 && !SetsPc(NOT);
  }

  /**
   * ADDI shifts `reg[a]` right by `reg[b]` instead of adding: the handler calls the SHR
   * operation. For a value of at least 1 in both registers the result is below the sum
   * an addition would give.
   */
  lemma AddiShiftsRight(m: Machine)
    requires WellFormed(m) && Fetches(m, ADDI, 2)
    requires Alu.IsReg(m.ram.cells[m.pc + 1]) && Alu.IsReg(m.ram.cells[m.pc + 2])
    requires m.reg[m.ram.cells[m.pc + 2]] >= 0
    ensures CanStep(m)
    ensures var a, b := m.ram.cells[m.pc + 1], m.ram.cells[m.pc + 2];
      Step(m).reg == m.reg[a := PyInt.Shr(m.reg[a], m.reg[b])]
    ensures var a, b := m.ram.cells[m.pc + 1], m.ram.cells[m.pc + 2];
      m.reg[a] > 0 && m.reg[b] > 0 ==> Step(m).reg[a] < m.reg[a] + m.reg[b]
  {
    var a, b := m.ram.cells[m.pc + 1], m.ram.cells[m.pc + 2];
    BinaryAluStep(m);
    if m.reg[a] >= 0 {
      PyInt.ShrOfNonneg(m.reg[a], m.reg[b]);
    }
  }

  /** The ALU's bitwise operations act bit by bit on the two registers. */
  lemma AluBitwise(op: Alu.AluOp, a: int, b: int, reg: seq<int>, fl: int, i: nat)
    requires |reg| == 8 && Alu.IsReg(a) && Alu.IsReg(b)
    requires op in {Alu.And, Alu.Or, Alu.Xor, Alu.Not}
    ensures var v := Alu.Apply(op, a, b, reg, fl).reg[a];
      PyInt.Bit(v, i) == match op
        case And => PyInt.Bit(reg[a], i) && PyInt.Bit(reg[b], i)
        case Or => PyInt.Bit(reg[a], i) || PyInt.Bit(reg[b], i)
        case Xor => PyInt.Bit(reg[a], i) != PyInt.Bit(reg[b], i)
        case _ => !PyInt.Bit(reg[a], i)
  {
    match op
    case And => PyInt.AndBit(reg[a], reg[b], i);
    case Or => PyInt.OrBit(reg[a], reg[b], i);
    case Xor => PyInt.XorBit(reg[a], reg[b], i);
    case Not => PyInt.InvertBit(reg[a], i);
  }

  /** On byte operands AND, OR, XOR and a positive MOD give a byte; nothing masks ADD. */
  lemma AluOnBytes(op: Alu.AluOp, a: int, b: int, reg: seq<int>, fl: int)
    requires |reg| == 8 && Alu.IsReg(a) && Alu.IsReg(b)
    requires 0 <= reg[a] < 256 && 0 < reg[b] < 256
    requires op in {Alu.And, Alu.Or, Alu.Xor, Alu.Mod}
    ensures 0 <= Alu.Apply(op, a, b, reg, fl).reg[a] < 256
  {
    assert PyInt.Pow2(8) == 256;
    PyInt.BitwiseInWidth(reg[a], reg[b], 8);
  }

  // ---------------------------------------------------------------------------
  // Whole programs

  /** The machine after construction with `image` loaded from address 0. */
  function Loaded(image: seq<int>): (m: Machine)
    requires |image| <= RAM_SIZE
    ensures WellFormed(m) && Running(m) && m.pc == 0 && m.out == []
    ensures m.reg == [0, 0, 0, 0, 0, 0, 0, SP_INIT]
    ensures forall i :: 0 <= i < |image| ==> m.ram.cells[i] == image[i]
  {
    Initial().(ram := Memory(image + seq(RAM_SIZE - |image|, _ => 0)))
  }

  /** LDI R0,8; PRN R0; HLT */
  const PRINT8: seq<int> := [LDI, 0, 8, PRN, 0, HLT]

  /** LDI R0,8; LDI R1,9; MUL R0,R1; PRN R0; HLT */
  const MULT: seq<int> := [LDI, 0, 8, LDI, 1, 9, MUL, 0, 1, PRN, 0, HLT]

  /** From a HLT the run takes one turn and stops, halted, after it. */
  lemma HaltRuns(m: Machine, fuel: nat)
    requires WellFormed(m) && At(m, HLT) && fuel >= 1
    ensures RunsTo(m, fuel, m.(ir := HLT, halted := true, pc := m.pc + 1))
  {
    HaltStep(m, fuel - 1);
    RunStep(m, fuel, Step(m));
  }

  /** From `PRN a; HLT` the run prints `reg[a]`, halts after the HLT and changes nothing else. */
  lemma PrnHaltRuns(m: Machine, fuel: nat)
    requires WellFormed(m) && Fetches(m, PRN, 2) && fuel >= 2
    requires Alu.IsReg(m.ram.cells[m.pc + 1]) && m.ram.cells[m.pc + 2] == HLT
    ensures RunsTo(m, fuel,
      m.(ir := HLT, halted := true, pc := m.pc + 3, out := m.out + [Number(m.reg[m.ram.cells[m.pc + 1]])]))
  {
    PrnStep(m);
    HaltRuns(Step(m), fuel - 1);
    RunStep(m, fuel, Step(m).(ir := HLT, halted := true, pc := m.pc + 3));
  }

  /** The first program, from pc 0 on any running machine whose RAM holds it. */
  lemma Print8From(m: Machine, fuel: nat)
    requires WellFormed(m) && Running(m) && m.pc == 0 && fuel >= 3
    requires m.ram.cells[0] == LDI && m.ram.cells[1] == 0 && m.ram.cells[2] == 8
    requires m.ram.cells[3] == PRN && m.ram.cells[4] == 0 && m.ram.cells[5] == HLT
    ensures RunsTo(m, fuel, m.(ir := HLT, halted := true, pc := 6, reg := m.reg[0 := 8], out := m.out + [Number(8)]))
  {
    LdiStep(m);
    PrnHaltRuns(Step(m), fuel - 1);
    RunStep(m, fuel, m.(ir := HLT, halted := true, pc := 6, reg := m.reg[0 := 8], out := m.out + [Number(8)]));
  }

  /** The first program prints 8 and halts after three instructions, with pc after the HLT. */
  lemma Print8Runs(fuel: nat)
    requires fuel >= 3
    ensures Covered(Loaded(PRINT8), fuel)
    ensures var r := Run(Loaded(PRINT8), fuel);
      r.halted && r.fault == None && r.out == [Number(8)] && r.pc == 6 && r.reg[0] == 8
  {
    Print8From(Loaded(PRINT8), fuel);
  }

  /** The MUL of the second program multiplies R0 = 8 by R1 = 9. */
  lemma MultMulStep(m: Machine)
    requires WellFormed(m) && Running(m) && m.pc == 6
    requires m.ram.cells[6] == MUL && m.ram.cells[7] == 0 && m.ram.cells[8] == 1
    requires m.reg[0] == 8 && m.reg[1] == 9
    ensures CanStep(m) && Step(m) == m.(ir := MUL, reg := m.reg[0 := 72], pc := 9)
  {
    BinaryAluStep(m);
    PyInt.MulIsProduct(8, 9);
  }

  /** The second program from its MUL: R0 becomes 72, is printed, and the run halts. */
  lemma MultFromMul(m: Machine, fuel: nat)
    requires WellFormed(m) && Running(m) && m.pc == 6 && fuel >= 3
    requires m.ram.cells[6] == MUL && m.ram.cells[7] == 0 && m.ram.cells[8] == 1
    requires m.ram.cells[9] == PRN && m.ram.cells[10] == 0 && m.ram.cells[11] == HLT
    requires m.reg[0] == 8 && m.reg[1] == 9
    ensures RunsTo(m, fuel,
      m.(ir := HLT, halted := true, pc := 12, reg := m.reg[0 := 72], out := m.out + [Number(72)]))
  {
    MultMulStep(m);
    PrnHaltRuns(Step(m), fuel - 1);
    RunStep(m, fuel, m.(ir := HLT, halted := true, pc := 12, reg := m.reg[0 := 72], out := m.out + [Number(72)]));
  }

  /** The second program from its second LDI. */
  lemma MultFromLdi(m: Machine, fuel: nat)
    requires WellFormed(m) && Running(m) && m.pc == 3 && fuel >= 4
    requires m.ram.cells[3] == LDI && m.ram.cells[4] == 1 && m.ram.cells[5] == 9
    requires m.ram.cells[6] == MUL && m.ram.cells[7] == 0 && m.ram.cells[8] == 1
    requires m.ram.cells[9] == PRN && m.ram.cells[10] == 0 && m.ram.cells[11] == HLT
    requires m.reg[0] == 8
    ensures RunsTo(m, fuel,
      m.(ir := HLT, halted := true, pc := 12, reg := m.reg[1 := 9][0 := 72], out := m.out + [Number(72)]))
  {
    LdiStep(m);
    MultFromMul(Step(m), fuel - 1);
    RunStep(m, fuel,
      m.(ir := HLT, halted := true, pc := 12, reg := m.reg[1 := 9][0 := 72], out := m.out + [Number(72)]));
  }

  /** The second program, from pc 0 on any running machine whose RAM holds it. */
  lemma MultFrom(m: Machine, fuel: nat)
    requires WellFormed(m) && Running(m) && m.pc == 0 && fuel >= 5
    requires m.ram.cells[0] == LDI && m.ram.cells[1] == 0 && m.ram.cells[2] == 8
    requires m.ram.cells[3] == LDI && m.ram.cells[4] == 1 && m.ram.cells[5] == 9
    requires m.ram.cells[6] == MUL && m.ram.cells[7] == 0 && m.ram.cells[8] == 1
    requires m.ram.cells[9] == PRN && m.ram.cells[10] == 0 && m.ram.cells[11] == HLT
    ensures RunsTo(m, fuel,
      m.(ir := HLT, halted := true, pc := 12, reg := m.reg[0 := 8][1 := 9][0 := 72], out := m.out + [Number(72)]))
  {
    LdiStep(m);
    MultFromLdi(Step(m), fuel - 1);
    RunStep(m, fuel,
      m.(ir := HLT, halted := true, pc := 12, reg := m.reg[0 := 8][1 := 9][0 := 72], out := m.out + [Number(72)]));
  }

  /** The second program prints 8 * 9 = 72. */
  lemma MultRuns(fuel: nat)
    requires fuel >= 5
    ensures Covered(Loaded(MULT), fuel)
    ensures var r := Run(Loaded(MULT), fuel);
      r.halted && r.fault == None && r.out == [Number(72)] && r.reg[0] == 72 && r.pc == 12
  {
    MultFrom(Loaded(MULT), fuel);
  }
}
