# LS-8 emulator and class-notes interpreter, modelled in Dafny

This project models the core of a Python emulator for the LS-8, an 8-bit teaching
computer with 256 bytes of RAM, eight registers (R7 is the stack pointer, SP) and a
one-byte opcode format. In that format, bits 7-6 count the operands and bit 4 says
whether the instruction sets pc. It also models the small four-instruction
interpreter from the course's class notes.

Files and modules:

- `wrappers.dfy` (`Wrappers`): the `Option` type.
- `py_int.dfy` (`PyInt`): Python's operators on unbounded integers. The bitwise
  operators `&`, `|` and `^` are defined by recursion on halves; the others are `~`,
  `*`, `<<`, `>>` and the floor `%` whose remainder takes the divisor's sign. They are
  proved against independent references: bit i as the parity of floor(x / 2^i), the
  product x * 2^n, floor division, and "x - r is a multiple of b".
- `ls8_alu.dfy` (`Ls8Alu`): `CPU.alu` as a pure function of the register file and the
  flag register, including the exceptions Python raises.
- `ls8.dfy` (`Ls8`): the CPU as a `Machine` value of its fields, with RAM as a `Memory`
  value that wraps the list of cells. It holds the opcodes, `ram_read`/`ram_write`, the
  `sp` property, `operand_a`/`operand_b`, the decoder properties and every handler. The
  branch table is the set of opcodes it holds (`InBranchTable`), each handler's
  precondition (`HandlerReady`) and `Execute`, which runs the handler the table holds
  for an opcode. One turn of `run` is `Step`, and `Run` is fuel-bounded.
- `ls8_cpu.dfy` (`Ls8Cpu`): the `CPU` class itself. RAM and registers are arrays
  updated in place, and the remaining fields are mutable fields. Every method is proved
  to produce exactly the `Ls8` function of the old state: the constructor, the memory
  methods, the `sp` setter, `alu`, each `execute_*` handler, the branch-table dispatch,
  one loop turn and `run`.
- `ls8_facts.dfy` (`Ls8Facts`): what the emulator promises, proved about the model.
  It covers the decoder against the opcode table, the loop's pc discipline, one lemma
  per instruction, PUSH/POP and CALL/RET round trips, SP staying a byte, CMP and the
  conditional jumps, the ALU handlers, and two whole programs run to completion.
- `class_notes.dfy` (`ClassNotes`): the `while not halted` interpreter of
  `some_classnotes.py`. It is a pure `Step`/`Run` plus the loop itself as a method over
  an array. Its own program outputs "Beej!", 37, "Beej!" and halts.

Effects are modelled as data. `print` becomes an output trace (`Printed`, `Line`).
`sys.exit(1)` after an unknown opcode becomes a `Fault` that ends the run, and so do
the exceptions the ALU and PRA raise on a value: ZeroDivisionError for `%` or `/` by
zero, ValueError for a negative shift count and for a `chr` code out of range. The
IndexError a register operand outside 0..7 or an ST address outside RAM raises is not
modelled: the handlers require those operands in range (see "## Left out"). In the class notes, the IndexError Python raises for a
list index out of range is a final status.

Where the emulator's comments and its code disagree, the model follows the code:

- Registers and RAM cells hold unmasked Python integers; only the `sp` setter masks,
  with `& 0xFF`.
- `execute_ADDI` calls the ALU's SHR operation, so ADDI shifts right rather than
  adding.
- A read outside RAM yields -1.
- JEQ and JNE fall through with `pc += 2` inside the handler. The run loop adds
  nothing more, because bit 4 of both opcodes is set.
- `execute_PUSH` moves SP before it reads `reg[operand_a]`, so `PUSH R7` pushes the new
  SP, and `PUSH R7; POP r` leaves SP - 1 (mod 256) in `r`, not the old R7
  (`Ls8Facts.PushSpThenPop`).

## Model

| member | source | states |
|---|---|---|
| Ls8.RamRead | ls8/cpu.py:131-136 | an address in 0..255 yields that cell; any other address yields -1 |
| Ls8.RamWrite | ls8/cpu.py:138-142 | an in-range write changes exactly the addressed cell to the unmasked value; an out-of-range write changes no cell |
| Ls8Facts.ReadAfterWrite | ls8/cpu.py:131-142 | reading after a write sees the written value at an in-range written address and the old reading everywhere else |
| Ls8.SetSp | ls8/cpu.py:106-108 | the `sp` setter stores `a & 0xFF`, which is `a mod 256`, in R7 only, and R7 is then in 0..255 |
| Ls8.InstructionSize | ls8/cpu.py:118-121 | the size is in 1..4 for every integer opcode |
| Ls8.InstructionSizeMasks | ls8/cpu.py:118-121 | `((ir >> 6) & 0b11) + 1` with Python's shift and mask equals the model's size, for every integer |
| Ls8.SetsPcMasks | ls8/cpu.py:123-126 | `((ir >> 4) & 1) == 1` holds exactly when bit 4 of `ir` is set |
| Ls8Facts.DecoderTable | ls8/cpu.py:8-35 | among the table's opcodes and IRET, bit 4 is set exactly for CALL, RET, JMP, JEQ, JNE and IRET (both directions) |
| Ls8Facts.InstructionSizes | ls8/cpu.py:8-35 | for each size 1, 2 and 3, the size is exactly the opcode plus the operands the instruction is encoded with, as bits 7-6 of the opcode constants give it (both directions); NOT's handler also reads the byte at pc + 2, which `alu` ignores, and IRET's pops read pc + 1 |
| Ls8.Initial | ls8/cpu.py:45-66 | the constructed CPU has 256 RAM cells and 8 registers |
| Ls8.ExecuteHlt | ls8/cpu.py:287-289 | keeps the machine shape; HLT's effect within a turn is stated by Ls8Facts.HaltStep |
| Ls8.ExecuteLdi | ls8/cpu.py:291-293 | keeps the machine shape; its effect is stated by Ls8Facts.LdiStep |
| Ls8.ExecutePrn | ls8/cpu.py:295-297 | keeps the machine shape; its effect is stated by Ls8Facts.PrnStep |
| Ls8.ExecutePush | ls8/cpu.py:304-309 | SP becomes (SP - 1) mod 256; the operand register, read after SP changed, goes to mdr and to RAM at the new SP; nothing else changes |
| Ls8.ExecutePop | ls8/cpu.py:315-320 | the cell at SP goes to mdr and the operand register, then SP becomes (SP + 1) mod 256, counted from the popped value when the operand is R7; RAM, pc and flags are unchanged |
| Ls8.ExecuteSt | ls8/cpu.py:327-329 | keeps the machine shape; its effect is stated by Ls8Facts.StStep |
| Ls8.ExecuteCall | ls8/cpu.py:331-336 | SP drops by one mod 256, `pc + instruction_size` is stored at the new SP, and pc becomes the register that the operand byte, read after that store, names; nothing else changes |
| Ls8.ExecuteRet | ls8/cpu.py:338-341 | pc becomes the cell at SP and SP becomes (SP + 1) mod 256; nothing else changes |
| Ls8.ExecuteJmp | ls8/cpu.py:388-390 | keeps the machine shape; its effect is stated by Ls8Facts.JmpStep |
| Ls8.ExecuteJeq | ls8/cpu.py:392-397 | keeps the machine shape; its effect is stated by Ls8Facts.JeqStep |
| Ls8.ExecuteJne | ls8/cpu.py:399-404 | keeps the machine shape; its effect is stated by Ls8Facts.JneStep |
| Ls8.ExecutePra | ls8/cpu.py:419-421 | keeps the machine shape; its effect is stated by Ls8Facts.PraStep |
| Ls8.ExecuteAst | ls8/cpu.py:423-427 | keeps the machine shape; its effect is stated by Ls8Facts.AstStep |
| Ls8.ExecuteMul | ls8/cpu.py:299-302 | keeps the machine shape; the effect of every binary ALU handler is stated by Ls8Facts.BinaryAluStep |
| Ls8.ExecuteAdd | ls8/cpu.py:343-346 | keeps the machine shape; see Ls8Facts.BinaryAluStep |
| Ls8.ExecuteSub | ls8/cpu.py:348-350 | keeps the machine shape; see Ls8Facts.BinaryAluStep |
| Ls8.ExecuteDiv | ls8/cpu.py:352-354 | keeps the machine shape; the zero-divisor case is stated by Ls8Facts.DivByZeroStep |
| Ls8.ExecuteMod | ls8/cpu.py:356-358 | keeps the machine shape; see Ls8Facts.BinaryAluStep |
| Ls8.ExecuteOr | ls8/cpu.py:360-362 | keeps the machine shape; see Ls8Facts.BinaryAluStep |
| Ls8.ExecuteXor | ls8/cpu.py:364-366 | keeps the machine shape; see Ls8Facts.BinaryAluStep |
| Ls8.ExecuteNot | ls8/cpu.py:368-370 | keeps the machine shape; its effect is stated by Ls8Facts.NotStep |
| Ls8.ExecuteShl | ls8/cpu.py:372-374 | keeps the machine shape; see Ls8Facts.BinaryAluStep |
| Ls8.ExecuteShr | ls8/cpu.py:376-378 | keeps the machine shape; see Ls8Facts.BinaryAluStep |
| Ls8.ExecuteAddi | ls8/cpu.py:380-382 | keeps the machine shape; its effect (a right shift) is stated by Ls8Facts.AddiShiftsRight |
| Ls8.ExecuteAnd | ls8/cpu.py:384-386 | keeps the machine shape; see Ls8Facts.BinaryAluStep |
| Ls8.ExecuteCmp | ls8/cpu.py:406-408 | keeps the machine shape; its effect is stated by Ls8Facts.CmpStep |
| Ls8.AluStep | ls8/cpu.py:171-221 | an ALU call leaves RAM, pc, ir, mdr, the halted flag and the output unchanged |
| Ls8.Execute | ls8/cpu.py:72-99 | the handler the table holds for any of its opcodes keeps 256 RAM cells, 8 registers and `ir` |
| Ls8.Step | ls8/cpu.py:276-284 | a loop turn keeps the machine shape and leaves in `ir` the byte fetched at pc |
| Ls8.Run | ls8/cpu.py:243-284 | a bounded run keeps the machine shape |
| Ls8Alu.Apply | ls8/cpu.py:171-221 | raises exactly for a zero MOD/DIV divisor or a negative shift count, with the matching exception; every operation but CMP writes only `reg[a]` and keeps the flags; CMP keeps the registers and sets exactly the flag (1, 2 or 4) that matches the ordering, with each flag if and only if its ordering holds |
| Ls8Facts.HandlerKeepsPc | ls8/cpu.py:283-284 | every handler whose opcode has bit 4 clear leaves pc where it was |
| Ls8Facts.StepAdvance | ls8/cpu.py:276-284 | after a handler that does not fault, pc advances by exactly `instruction_size` when bit 4 is clear, and is where the handler put it when bit 4 is set |
| Ls8Facts.HaltStep | ls8/cpu.py:287-289 | HLT sets `halted` and advances pc by one, changing nothing else; any run from there stays where it is |
| Ls8Facts.UnknownStep | ls8/cpu.py:278-282 | an opcode missing from the table ends the run with an unknown-instruction fault and changes nothing else |
| Ls8Facts.RunStep | ls8/cpu.py:246-284 | a covered turn of a running machine, followed by a covered run from its result to r, is a covered run to r |
| Ls8Facts.LdiStep | ls8/cpu.py:291-293 | LDI stores the operand byte itself in the operand register and advances pc by 3 |
| Ls8Facts.PrnStep | ls8/cpu.py:295-297 | PRN appends the register's number to the output and advances pc by 2 |
| Ls8Facts.PushStep | ls8/cpu.py:304-309 | one PUSH turn: SP down by one mod 256, the register (read after SP changed) stored there and in mdr, pc + 2 |
| Ls8Facts.PopStep | ls8/cpu.py:315-320 | one POP turn: the cell at SP into the register and mdr, SP up by one mod 256, pc + 2 |
| Ls8Facts.CallStep | ls8/cpu.py:331-336 | one CALL turn: pc + 2 pushed at SP - 1 mod 256, pc set to the operand register; the loop adds nothing |
| Ls8Facts.RetStep | ls8/cpu.py:338-341 | one RET turn: pc from the cell at SP, SP up by one mod 256 |
| Ls8Facts.StStep | ls8/cpu.py:327-329 | ST stores `reg[b]` at the RAM address in `reg[a]` and advances pc by 3 |
| Ls8Facts.PraStep | ls8/cpu.py:419-421 | PRA prints the character with the register's code and advances pc by 2; a code outside 0..0x10FFFF makes `chr` raise and ends the run |
| Ls8Facts.AstStep | ls8/cpu.py:423-427 | AST prints a row of exactly `reg[a]` stars (none for a negative count) and advances pc by 2 |
| Ls8Facts.SpRoundTrip | ls8/cpu.py:106-108 | the modular identity ((sp - 1) mod 256 + 1) mod 256 = sp mod 256, which PopAfterPush and RetAfterCall use for the setter's masked decrement and increment; a byte sp is its own residue |
| Ls8Facts.PushThenPop | ls8/cpu.py:304-320 | for r, r2 other than R7 and a pushed cell clear of POP's two bytes, PUSH r then POP r2 copies the old `reg[r]` into `reg[r2]`, restores SP (mod 256, exactly for a byte SP), keeps every other register and the flags, and advances pc by 4 |
| Ls8Facts.PopAfterPush | ls8/cpu.py:315-320 | the POP half of that round trip, on the machine the PUSH left |
| Ls8Facts.PushSpThenPop | ls8/cpu.py:304-320 | PUSH R7 then POP r2 (r2 other than R7, pushed cell clear of POP's bytes) leaves SP - 1 mod 256 in `reg[r2]`, which differs from the old R7 when it was a byte, and restores SP mod 256 |
| Ls8Facts.PopAfterPushSp | ls8/cpu.py:315-320 | the POP half of that sequence, on the machine the PUSH R7 left |
| Ls8Facts.CallThenRet | ls8/cpu.py:331-341 | for r other than R7, `reg[r]` a RAM address holding RET, and a pushed cell that misses both CALL's operand byte and that RET, CALL r then RET returns to the CALL's pc + 2 with SP restored (every register restored when SP was a byte) |
| Ls8Facts.RetAfterCall | ls8/cpu.py:338-341 | the RET half of that round trip, on the machine the CALL left |
| Ls8Facts.StackKeepsSpByte | ls8/cpu.py:106-108 | after any PUSH, POP, CALL or RET turn, SP is in 0..255 |
| Ls8Facts.CmpStep | ls8/cpu.py:406-408 | CMP sets `fl` to exactly one of 1, 2, 4, each if and only if the registers are equal, greater or less; it changes no register, RAM or output and advances pc by 3 |
| Ls8Facts.JmpStep | ls8/cpu.py:388-390 | JMP sets pc to the operand register and the loop adds nothing |
| Ls8Facts.JeqStep | ls8/cpu.py:392-397 | JEQ jumps to the register exactly when `fl` is 1 and otherwise moves pc on by 2 |
| Ls8Facts.JneStep | ls8/cpu.py:399-404 | JNE jumps exactly when `fl` is not 1 and otherwise moves pc on by 2 |
| Ls8Facts.AluOpOf | ls8/cpu.py:343-386 | every binary ALU handler passes an operation that reads `reg[reg_b]`, and that operation is neither CMP nor DIV |
| Ls8Facts.AluHandlerIs | ls8/cpu.py:72-99 | the table entry of each binary ALU opcode is `alu` with that opcode's operation on the two operands (SHR for ADDI) |
| Ls8Facts.BinaryApply | ls8/cpu.py:171-221 | a binary ALU operation raises exactly on a negative shift count or a zero modulus, and otherwise writes the Python value into `reg[a]` alone |
| Ls8Facts.BinaryAluStep | ls8/cpu.py:343-386 | each of ADD, SUB, MUL, AND, OR, XOR, SHL, SHR, MOD and ADDI writes only `reg[a]` with the unmasked result and advances pc by 3, or raises and stops where it was |
| Ls8Facts.DivByZeroStep | ls8/cpu.py:193-194 | DIV by a zero register raises ZeroDivisionError and ends the run |
| Ls8Facts.NotStep | ls8/cpu.py:202-203 | NOT writes `-x - 1` into the register and advances pc by 2 |
| Ls8Facts.AddiShiftsRight | ls8/cpu.py:380-382 | ADDI writes `reg[a] >> reg[b]`, which for positive operands is below the sum an addition would give |
| Ls8Facts.AluBitwise | ls8/cpu.py:196-215 | AND, OR, XOR and NOT act bit by bit on the registers' two's-complement bits |
| Ls8Facts.AluOnBytes | ls8/cpu.py:196-215 | on byte operands AND, OR, XOR and MOD by a positive byte give a byte |
| Ls8Facts.Loaded | ls8/cpu.py:45-66 | a freshly constructed CPU with an image at address 0 is running at pc 0, with the constructor's registers and the image in RAM |
| Ls8Facts.HaltRuns | ls8/cpu.py:276-289 | from a HLT, the run is covered and ends after one turn, halted at pc + 1, with nothing else changed |
| Ls8Facts.PrnHaltRuns | ls8/cpu.py:276-297 | `PRN a; HLT` ends in the exact machine that has printed `reg[a]` and halted after the HLT, with registers, RAM and flags unchanged |
| Ls8Facts.Print8From | ls8/cpu.py:276-297 | `LDI R0,8; PRN R0; HLT` at pc 0 ends in the exact machine with R0 = 8, 8 printed, halted at pc 6 |
| Ls8Facts.Print8Runs | ls8/cpu.py:243-297 | the loaded print-8 program prints 8 and halts |
| Ls8Facts.MultMulStep | ls8/cpu.py:299-302 | the MUL of the multiply program stores 8 * 9 = 72 in R0 and moves to pc 9 |
| Ls8Facts.MultFromMul | ls8/cpu.py:276-302 | from the MUL, the multiply program ends in the exact machine with R0 = 72, 72 printed, halted at pc 12 |
| Ls8Facts.MultFromLdi | ls8/cpu.py:276-302 | from the second LDI, the same, with R1 = 9 as well |
| Ls8Facts.MultFrom | ls8/cpu.py:276-302 | from pc 0, `LDI R0,8; LDI R1,9; MUL R0,R1; PRN R0; HLT` ends in the exact machine with R0 = 72, R1 = 9, 72 printed, halted at pc 12 |
| Ls8Facts.MultRuns | ls8/cpu.py:243-302 | the loaded multiply program prints 72 and halts |
| Ls8Cpu.Cpu.constructor | ls8/cpu.py:45-66 | the fresh object's state is `Ls8.Initial()` |
| Ls8Cpu.Cpu.RamRead | ls8/cpu.py:131-136 | returns the cell for an address in 0..255 and -1 otherwise |
| Ls8Cpu.Cpu.RamWrite | ls8/cpu.py:138-142 | the RAM array afterwards is `Ls8.RamWrite` of the old contents |
| Ls8Cpu.Cpu.SetSp | ls8/cpu.py:106-108 | the object afterwards is `Ls8.SetSp` of the old state, with R7 = a mod 256 |
| Ls8Cpu.Cpu.OperandA | ls8/cpu.py:110-112 | returns the byte after the opcode, as `ram_read(pc + 1)` |
| Ls8Cpu.Cpu.OperandB | ls8/cpu.py:114-116 | returns `ram_read(pc + 2)` |
| Ls8Cpu.Cpu.Alu | ls8/cpu.py:171-221 | the register array and flags afterwards are what `Ls8Alu.Apply` computes, or a raised fault with registers and flags unchanged |
| Ls8Cpu.Cpu.ExecuteHlt | ls8/cpu.py:287-289 | the object afterwards is `Ls8.ExecuteHlt` of the old state |
| Ls8Cpu.Cpu.ExecuteLdi | ls8/cpu.py:291-293 | the object afterwards is `Ls8.ExecuteLdi` of the old state |
| Ls8Cpu.Cpu.ExecutePrn | ls8/cpu.py:295-297 | the object afterwards is `Ls8.ExecutePrn` of the old state |
| Ls8Cpu.Cpu.ExecuteMul | ls8/cpu.py:299-302 | the object afterwards is `Ls8.ExecuteMul` of the old state |
| Ls8Cpu.Cpu.ExecutePush | ls8/cpu.py:304-309 | the object afterwards is `Ls8.ExecutePush` of the old state |
| Ls8Cpu.Cpu.ExecutePop | ls8/cpu.py:315-320 | the object afterwards is `Ls8.ExecutePop` of the old state |
| Ls8Cpu.Cpu.ExecuteSt | ls8/cpu.py:327-329 | the object afterwards is `Ls8.ExecuteSt` of the old state |
| Ls8Cpu.Cpu.ExecuteCall | ls8/cpu.py:331-336 | the object afterwards is `Ls8.ExecuteCall` of the old state |
| Ls8Cpu.Cpu.ExecuteRet | ls8/cpu.py:338-341 | the object afterwards is `Ls8.ExecuteRet` of the old state |
| Ls8Cpu.Cpu.ExecuteAdd | ls8/cpu.py:343-346 | the object afterwards is `Ls8.ExecuteAdd` of the old state |
| Ls8Cpu.Cpu.ExecuteSub | ls8/cpu.py:348-350 | the object afterwards is `Ls8.ExecuteSub` of the old state |
| Ls8Cpu.Cpu.ExecuteDiv | ls8/cpu.py:352-354 | the object afterwards is `Ls8.ExecuteDiv` of the old state |
| Ls8Cpu.Cpu.ExecuteMod | ls8/cpu.py:356-358 | the object afterwards is `Ls8.ExecuteMod` of the old state |
| Ls8Cpu.Cpu.ExecuteOr | ls8/cpu.py:360-362 | the object afterwards is `Ls8.ExecuteOr` of the old state |
| Ls8Cpu.Cpu.ExecuteXor | ls8/cpu.py:364-366 | the object afterwards is `Ls8.ExecuteXor` of the old state |
| Ls8Cpu.Cpu.ExecuteNot | ls8/cpu.py:368-370 | the object afterwards is `Ls8.ExecuteNot` of the old state |
| Ls8Cpu.Cpu.ExecuteShl | ls8/cpu.py:372-374 | the object afterwards is `Ls8.ExecuteShl` of the old state |
| Ls8Cpu.Cpu.ExecuteShr | ls8/cpu.py:376-378 | the object afterwards is `Ls8.ExecuteShr` of the old state |
| Ls8Cpu.Cpu.ExecuteAddi | ls8/cpu.py:380-382 | the object afterwards is `Ls8.ExecuteAddi` of the old state |
| Ls8Cpu.Cpu.ExecuteAnd | ls8/cpu.py:384-386 | the object afterwards is `Ls8.ExecuteAnd` of the old state |
| Ls8Cpu.Cpu.ExecuteCmp | ls8/cpu.py:406-408 | the object afterwards is `Ls8.ExecuteCmp` of the old state |
| Ls8Cpu.Cpu.ExecuteJmp | ls8/cpu.py:388-390 | the object afterwards is `Ls8.ExecuteJmp` of the old state |
| Ls8Cpu.Cpu.ExecuteJeq | ls8/cpu.py:392-397 | the object afterwards is `Ls8.ExecuteJeq` of the old state |
| Ls8Cpu.Cpu.ExecuteJne | ls8/cpu.py:399-404 | the object afterwards is `Ls8.ExecuteJne` of the old state |
| Ls8Cpu.Cpu.ExecutePra | ls8/cpu.py:419-421 | the object afterwards is `Ls8.ExecutePra` of the old state |
| Ls8Cpu.Cpu.ExecuteAst | ls8/cpu.py:423-427 | builds the row of stars in a loop; the object afterwards is `Ls8.ExecuteAst` of the old state |
| Ls8Cpu.Cpu.Dispatch | ls8/cpu.py:278-279 | calling the handler method the table holds for `op` leaves the object in `Ls8.Execute(op, ·)` of the old state |
| Ls8Cpu.Cpu.DispatchArithmetic | ls8/cpu.py:278-279 | the same, for MUL, ADD, SUB, DIV, MOD, CMP and ADDI |
| Ls8Cpu.Cpu.DispatchBitwise | ls8/cpu.py:278-279 | the same, for OR, XOR, NOT, SHL, SHR and AND |
| Ls8Cpu.Cpu.DispatchStack | ls8/cpu.py:278-279 | the same, for PUSH, POP, CALL and RET |
| Ls8Cpu.Cpu.DispatchJump | ls8/cpu.py:278-279 | the same, for JMP, JEQ and JNE |
| Ls8Cpu.Cpu.DispatchOther | ls8/cpu.py:278-279 | the same, for HLT, LDI, PRN, AST, PRA and ST |
| Ls8Cpu.Cpu.Step | ls8/cpu.py:276-284 | one loop turn in place leaves the object in `Ls8.Step` of the old state |
| Ls8Cpu.Cpu.Run | ls8/cpu.py:243-284 | the `while self.halted is False` loop, for at most `fuel` turns, leaves the object in `Ls8.Run` of the old state |
| PyInt.MulIsProduct | ls8/cpu.py:177-178 | the model of Python `*` is the integer product |
| PyInt.ShlIsProduct | ls8/cpu.py:205-206 | Python `x << n` is x * 2^n |
| PyInt.ShrIsDiv | ls8/cpu.py:208-209 | Python `x >> n` is floor(x / 2^n) |
| PyInt.ShrOfNonneg | ls8/cpu.py:208-209 | shifting a non-negative number right gives a value between 0 and the number |
| PyInt.FloorMod | ls8/cpu.py:211-212 | Python `x % b` lies in 0..b-1 for a positive divisor and in b+1..0 for a negative one |
| PyInt.FloorModIsRemainder | ls8/cpu.py:211-212 | x minus Python's `x % b` is a multiple of b, for either sign of b |
| PyInt.AndBit | ls8/cpu.py:214-215 | bit i of `x & y` is bit i of x and bit i of y |
| PyInt.OrBit | ls8/cpu.py:196-197 | bit i of `x \| y` is bit i of x or bit i of y |
| PyInt.XorBit | ls8/cpu.py:199-200 | bit i of `x ^ y` is bit i of x differing from bit i of y |
| PyInt.InvertBit | ls8/cpu.py:202-203 | bit i of `~x` is the negation of bit i of x |
| PyInt.ShlBit | ls8/cpu.py:205-206 | `x << k` moves bit i to bit i + k and clears the low k bits |
| PyInt.ShrBit | ls8/cpu.py:208-209 | bit i of `x >> k` is bit i + k of x |
| PyInt.AndLowMask | ls8/cpu.py:106-108 | `x & (2^k - 1)` is x mod 2^k, for negative x too |
| PyInt.BitwiseInWidth | ls8/cpu.py:196-215 | AND, OR and XOR of two k-bit non-negative numbers fit in k bits |
| PyInt.BitIsQuotientParity | ls8/cpu.py:123-126 | bit i of x is the parity of floor(x / 2^i) |
| ClassNotes.Start | some_classnotes.py:26-33 | eight zero registers, pc 0, running, nothing printed |
| ClassNotes.Step | some_classnotes.py:35-60 | a turn that keeps the loop running moves pc forward and stays within `memory`; output is only appended to |
| ClassNotes.Run | some_classnotes.py:35-60 | the loop always stops, and the output of a run extends its starting output |
| ClassNotes.Interpret | some_classnotes.py:28-60 | the loop over an array of registers updated in place ends in exactly the state `Run` computes from the start state |
| ClassNotes.PrintBeejStep | some_classnotes.py:38-40 | PRINT_BEEJ prints "Beej!" and advances pc by 1 |
| ClassNotes.HaltStep | some_classnotes.py:42-44 | HALT sets halted and advances pc by 1, and the loop ends there |
| ClassNotes.SaveRegStep | some_classnotes.py:46-51 | SAVE_REG sets the named register to the value byte, changes no other register and advances pc by 3 |
| ClassNotes.PrintRegStep | some_classnotes.py:53-56 | PRINT_REG prints the named register, changes no register and advances pc by 2 |
| ClassNotes.OperandIndexError | some_classnotes.py:46-56 | an operand past the end of `memory`, or a register index outside -8..7, raises IndexError |
| ClassNotes.FetchIndexError | some_classnotes.py:35-36 | a pc at the end of `memory` raises IndexError at the fetch |
| ClassNotes.UnknownStep | some_classnotes.py:58-60 | any other instruction prints its message and exits with status 1, changing no register |
| ClassNotes.RunUnfold | some_classnotes.py:35 | a run from a running state is one turn followed by the rest of the run |
| ClassNotes.RunEndings | some_classnotes.py:35-60 | a run ends only by HALT, by an IndexError or by exit status 1 |
| ClassNotes.ProgramRun | some_classnotes.py:15-60 | the script's own program prints "Beej!", 37, "Beej!", halts at pc 8 with register 1 = 37 and the other registers 0 |
| ClassNotes.RunScript | some_classnotes.py:15-60 | the imperative loop on the script's own memory ends halted at pc 8, with register 1 = 37 and that output |

## Left out

- `load()` is not modelled: it reads a program file named on the command line. A
  loaded program is given directly as a RAM image (`Ls8Facts.Loaded`).
- `trace()` is not modelled: it only prints debugging output.
- The printed diagnostics of `ram_read`/`ram_write` for an address outside RAM are
  not in the output trace; only their results (-1, no write) are modelled.
- Console formatting (newlines, `end=''`, flushing, the text `chr` produces) is not
  modelled: the trace records numbers, character codes and rows of stars.
- The interrupt code in `run` is not modelled: it is commented out and depends on
  `msvcrt` and the clock.
- IRET, PUSHI and POPI are not modelled: they index `reg` with SP's value and depend
  on the interrupt code. `Ls8.CanStep` excludes IRET.
- Ls8.ExecuteDiv: only a zero divisor is modelled, as ZeroDivisionError. Any other DIV
  stores a Python float in the register, and floating point is outside the model.
- The `raise Exception` of `alu` for an unknown operation name cannot occur: the
  operation is a datatype with exactly the names `alu`'s branches test (`AddI` among
  them, though no handler passes it).
- Register operands outside 0..7 and ST addresses outside 0..255 are not modelled.
  The handlers require them in range (`Ls8.HandlerReady`, checked by `Ls8.CanStep`,
  and `Ls8.Run` stops short of such a turn). In the source, an index of 8 or more
  raises IndexError and ends the run, and a negative one aliases from the end of the
  list (an operand of -1 read past the end of RAM would name `reg[-1]`, i.e. SP);
  ST indexes the RAM list directly, so the same holds for its address. The
  class-notes interpreter does model negative register indices.
- Resource errors of Python's big integers are not modelled: `SHL` by a huge
  count (say 2^255) makes Python raise OverflowError or MemoryError, while
  `PyInt.Shl` computes the mathematical x * 2^n. Likewise, from Python 3.11 on, `print`
  of a register with more than 4300 decimal digits (reachable by a large SHL or repeated
  MUL) raises ValueError at the int-to-string conversion, while `Ls8.ExecutePrn` appends
  `Number(v)` for any v.
- The fields `mar` (set in `__init__`, never used) and `interrupts_enabled` (used only by
  the interrupt code) are not in `Ls8.Machine`.
- Ls8.Run: the `run` loop is modelled for a bounded number of turns (`fuel`). Running
  forever is represented by any fuel bound, and `Ls8.Covered` asks that every turn
  within the bound meets its handler's requirements.
- Ls8.ExecuteLdi and the other handler functions whose table row says "keeps the
  machine shape" state only that in their own contract; each one's effect is proved in
  the Ls8Facts lemma the row names.
