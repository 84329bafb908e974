/**
 * The `CPU` class of ls8/cpu.py with its state held in place: 256 RAM cells and eight
 * registers in arrays, the other fields as fields. Every method is proved to take the
 * object from `old(Snapshot())` to the state the pure function of the same name in
 * module `Ls8` computes.
 */
module Ls8Cpu {
  import opened Wrappers
  import PyInt
  import Ls8Alu
  import Ls8

  class Cpu {
    const ram: array<int>
    const reg: array<int>
    var pc: int
    var ir: int
    var mdr: int
    var fl: int
    var halted: bool
    /** Set when the run ends with an error (sys.exit(1) or an uncaught exception). */
    var fault: Option<Ls8.Fault>
    /** What the handlers have printed, one entry per `print` call. */
    var out: seq<Ls8.Printed>

    /** The array sizes. `ram` and `reg` are `const`, so every method keeps this. */
    ghost predicate Valid()
      reads this
    {
      ram.Length == Ls8.RAM_SIZE && reg.Length == 8
    }

    /** The object's state as a value. */
    function Snapshot(): (m: Ls8.Machine)
      reads this, ram, reg
      requires Valid()
      ensures Ls8.WellFormed(m)
    {
      Ls8.Machine(Ls8.Memory(ram[..]), reg[..], pc, ir, mdr, fl, halted, fault, out)
    }

    /** `CPU.__init__`. */
    constructor ()
      ensures Valid() && fresh(ram) && fresh(reg)
      ensures Snapshot() == Ls8.Initial()
    {
      ram := new int[Ls8.RAM_SIZE](_ => 0);
      reg := new int[8](_ => 0);
      pc, ir, mdr, fl := 0, 0, 0, 0;
      halted := false;
      fault := None;
      out := [];
      new;
      reg[Ls8.SP] := Ls8.SP_INIT;
      assert ram[..] == seq(Ls8.RAM_SIZE, _ => 0);
      assert reg[..] == [0, 0, 0, 0, 0, 0, 0, Ls8.SP_INIT];
    }

    /** `ram_read`. */
    method RamRead(address: int) returns (value: int)
      requires Valid()
      ensures 0 <= address < Ls8.RAM_SIZE ==> value == ram[address]
      ensures !(0 <= address < Ls8.RAM_SIZE) ==> value == -1
    {
      if 0 <= address < ram.Length {
        value := ram[address];
      } else {
        value := -1;
      }
    }

    /** `ram_write`. */
    method RamWrite(address: int, value: int)
      requires Valid()
      modifies ram
      ensures Valid()
      ensures ram[..] == Ls8.RamWrite(old(ram[..]), address, value)
    {
      if 0 <= address < ram.Length {
        ram[address] := value;
      }
    }

    /** Assignment through the `sp` property setter. */
    method SetSp(a: int)
      requires Valid()
      modifies reg
      ensures Valid()
      ensures Snapshot() == Ls8.SetSp(old(Snapshot()), a)
      ensures reg[Ls8.SP] == a % 256
    {
      reg[Ls8.SP] := PyInt.And(a, 0xFF);
    }

    method OperandA() returns (a: int)
      requires Valid()
      ensures a == Ls8.OperandA(Snapshot())
    {
      a := RamRead(pc + 1);
    }

    method OperandB() returns (b: int)
      requires Valid()
      ensures b == Ls8.OperandB(Snapshot())
    {
      b := RamRead(pc + 2);
    }

    /** `alu(op, reg_a, reg_b)`. */
    method Alu(op: Ls8Alu.AluOp, a: int, b: int)
      requires Valid() && Ls8Alu.IsReg(a) && (Ls8Alu.ReadsRegB(op) ==> Ls8Alu.IsReg(b))
      requires op == Ls8Alu.Div ==> reg[b] == 0
      modifies this, reg
      ensures Valid()
      ensures pc == old(pc) && ir == old(ir) && mdr == old(mdr) && halted == old(halted) && out == old(out)
      ensures match Ls8Alu.Apply(op, a, b, old(reg[..]), old(fl))
        case Done(r, f) => reg[..] == r && fl == f && fault == old(fault)
        case Failed(e) => reg[..] == old(reg[..]) && fl == old(fl) && fault == Some(Ls8.Raised(e))
    {
      match op
      case Add => reg[a] := reg[a] + reg[b];
      case Mul => reg[a] := PyInt.Mul(reg[a], reg[b]);
      case Cmp =>
        if reg[a] == reg[b] {
          fl := Ls8Alu.FL_EQUAL;
        } else if reg[a] > reg[b] {
          fl := Ls8Alu.FL_GREATER;
        } else if reg[a] < reg[b] {
          fl := Ls8Alu.FL_LESS;
        }
      case Sub => reg[a] := reg[a] - reg[b];
      case Div => fault := Some(Ls8.Raised(Ls8Alu.ZeroDivisionError));
      case Or => reg[a] := PyInt.Or(reg[a], reg[b]);
      case Xor => reg[a] := PyInt.Xor(reg[a], reg[b]);
      case Not => reg[a] := PyInt.Invert(reg[a]);
      case Shl =>
        if reg[b] < 0 {
          fault := Some(Ls8.Raised(Ls8Alu.ValueError));
        } else {
          reg[a] := PyInt.Shl(reg[a], reg[b]);
        }
      case Shr =>
        if reg[b] < 0 {
          fault := Some(Ls8.Raised(Ls8Alu.ValueError));
        } else {
          reg[a] := PyInt.Shr(reg[a], reg[b]);
        }
      case Mod =>
        if reg[b] == 0 {
          fault := Some(Ls8.Raised(Ls8Alu.ZeroDivisionError));
        } else {
          reg[a] := PyInt.FloorMod(reg[a], reg[b]);
        }
      case And => reg[a] := PyInt.And(reg[a], reg[b]);
      case AddI => reg[a] := reg[a] + b;
    }

    // -------------------------------------------------------------------------
    // The branch-table handlers

    method ExecuteHlt()
      requires Valid()
      modifies this
      ensures Valid()
      ensures Snapshot() == Ls8.ExecuteHlt(old(Snapshot()))
    {
      halted := true;
    }

    method ExecuteLdi()
      requires Valid() && Ls8Alu.IsReg(Ls8.OperandA(Snapshot()))
      modifies reg
      ensures Valid()
      ensures Snapshot() == Ls8.ExecuteLdi(old(Snapshot()))
    {
      var b := OperandB();
      var a := OperandA();
      reg[a] := b;
    }

    method ExecutePrn()
      requires Valid() && Ls8Alu.IsReg(Ls8.OperandA(Snapshot()))
      modifies this
      ensures Valid()
      ensures Snapshot() == Ls8.ExecutePrn(old(Snapshot()))
    {
      var a := OperandA();
      out := out + [Ls8.Number(reg[a])];
    }

    method ExecuteMul()
      requires Valid() && Ls8.RegisterOperands(Snapshot())
      modifies this, reg
      ensures Valid()
      ensures Snapshot() == Ls8.ExecuteMul(old(Snapshot()))
    {
      var a := OperandA();
      var b := OperandB();
      Alu(Ls8Alu.Mul, a, b);
    }

    method ExecutePush()
      requires Valid() && Ls8Alu.IsReg(Ls8.OperandA(Snapshot()))
      modifies this, ram, reg
      ensures Valid()
      ensures Snapshot() == Ls8.ExecutePush(old(Snapshot()))
    {
      SetSp(reg[Ls8.SP] - 1);
      var a := OperandA();
      mdr := reg[a];
      RamWrite(reg[Ls8.SP], mdr);
    }

    method ExecutePop()
      requires Valid() && Ls8Alu.IsReg(Ls8.OperandA(Snapshot()))
      modifies this, reg
      ensures Valid()
      ensures Snapshot() == Ls8.ExecutePop(old(Snapshot()))
    {
      mdr := RamRead(reg[Ls8.SP]);
      var a := OperandA();
      reg[a] := mdr;
      SetSp(reg[Ls8.SP] + 1);
    }

    method ExecuteSt()
      requires Valid() && Ls8.RegisterOperands(Snapshot()) && 0 <= reg[Ls8.OperandA(Snapshot())] < Ls8.RAM_SIZE
      modifies ram
      ensures Valid()
      ensures Snapshot() == Ls8.ExecuteSt(old(Snapshot()))
    {
      var b := OperandB();
      var a := OperandA();
      ram[reg[a]] := reg[b];
    }

    method ExecuteCall()
      requires Valid() && Ls8Alu.IsReg(Ls8.CallOperand(Snapshot()))
      modifies this, ram, reg
      ensures Valid()
      ensures Snapshot() == Ls8.ExecuteCall(old(Snapshot()))
    {
      SetSp(reg[Ls8.SP] - 1);
      RamWrite(reg[Ls8.SP], pc + Ls8.InstructionSize(ir));
      var a := OperandA();
      pc := reg[a];
    }

    method ExecuteRet()
      requires Valid()
      modifies this, reg
      ensures Valid()
      ensures Snapshot() == Ls8.ExecuteRet(old(Snapshot()))
    {
      pc := RamRead(reg[Ls8.SP]);
      SetSp(reg[Ls8.SP] + 1);
    }

    method ExecuteAdd()
      requires Valid() && Ls8.RegisterOperands(Snapshot())
      modifies this, reg
      ensures Valid()
      ensures Snapshot() == Ls8.ExecuteAdd(old(Snapshot()))
    {
      var a := OperandA();
      var b := OperandB();
      Alu(Ls8Alu.Add, a, b);
    }

    method ExecuteSub()
      requires Valid() && Ls8.RegisterOperands(Snapshot())
      modifies this, reg
      ensures Valid()
      ensures Snapshot() == Ls8.ExecuteSub(old(Snapshot()))
    {
      var a := OperandA();
      var b := OperandB();
      Alu(Ls8Alu.Sub, a, b);
    }

    method ExecuteDiv()
      requires Valid() && Ls8.RegisterOperands(Snapshot()) && reg[Ls8.OperandB(Snapshot())] == 0
      modifies this, reg
      ensures Valid()
      ensures Snapshot() == Ls8.ExecuteDiv(old(Snapshot()))
    {
      var a := OperandA();
      var b := OperandB();
      Alu(Ls8Alu.Div, a, b);
    }

    method ExecuteMod()
      requires Valid() && Ls8.RegisterOperands(Snapshot())
      modifies this, reg
      ensures Valid()
      ensures Snapshot() == Ls8.ExecuteMod(old(Snapshot()))
    {
      var a := OperandA();
      var b := OperandB();
      Alu(Ls8Alu.Mod, a, b);
    }

    method ExecuteOr()
      requires Valid() && Ls8.RegisterOperands(Snapshot())
      modifies this, reg
      ensures Valid()
      ensures Snapshot() == Ls8.ExecuteOr(old(Snapshot()))
    {
      var a := OperandA();
      var b := OperandB();
      Alu(Ls8Alu.Or, a, b);
    }

    method ExecuteXor()
      requires Valid() && Ls8.RegisterOperands(Snapshot())
      modifies this, reg
      ensures Valid()
      ensures Snapshot() == Ls8.ExecuteXor(old(Snapshot()))
    {
      var a := OperandA();
      var b := OperandB();
      Alu(Ls8Alu.Xor, a, b);
    }

    method ExecuteNot()
      requires Valid() && Ls8Alu.IsReg(Ls8.OperandA(Snapshot()))
      modifies this, reg
      ensures Valid()
      ensures Snapshot() == Ls8.ExecuteNot(old(Snapshot()))
    {
      var a := OperandA();
      var b := OperandB();
      Alu(Ls8Alu.Not, a, b);
    }

    method ExecuteShl()
      requires Valid() && Ls8.RegisterOperands(Snapshot())
      modifies this, reg
      ensures Valid()
      ensures Snapshot() == Ls8.ExecuteShl(old(Snapshot()))
    {
      var a := OperandA();
      var b := OperandB();
      Alu(Ls8Alu.Shl, a, b);
    }

    method ExecuteShr()
      requires Valid() && Ls8.RegisterOperands(Snapshot())
      modifies this, reg
      ensures Valid()
      ensures Snapshot() == Ls8.ExecuteShr(old(Snapshot()))
    {
      var a := OperandA();
      var b := OperandB();
      Alu(Ls8Alu.Shr, a, b);
    }

    method ExecuteAddi()
      requires Valid() && Ls8.RegisterOperands(Snapshot())
      modifies this, reg
      ensures Valid()
      ensures Snapshot() == Ls8.ExecuteAddi(old(Snapshot()))
    {
      var a := OperandA();
      var b := OperandB();
      Alu(Ls8Alu.Shr, a, b);
    }

    method ExecuteAnd()
      requires Valid() && Ls8.RegisterOperands(Snapshot())
      modifies this, reg
      ensures Valid()
      ensures Snapshot() == Ls8.ExecuteAnd(old(Snapshot()))
    {
      var a := OperandA();
      var b := OperandB();
      Alu(Ls8Alu.And, a, b);
    }

    method ExecuteCmp()
      requires Valid() && Ls8.RegisterOperands(Snapshot())
      modifies this, reg
      ensures Valid()
      ensures Snapshot() == Ls8.ExecuteCmp(old(Snapshot()))
    {
      var a := OperandA();
      var b := OperandB();
      Alu(Ls8Alu.Cmp, a, b);
    }

    method ExecuteJmp()
      requires Valid() && Ls8Alu.IsReg(Ls8.OperandA(Snapshot()))
      modifies this
      ensures Valid()
      ensures Snapshot() == Ls8.ExecuteJmp(old(Snapshot()))
    {
      var a := OperandA();
      pc := reg[a];
    }

    method ExecuteJeq()
      requires Valid() && (fl == Ls8Alu.FL_EQUAL ==> Ls8Alu.IsReg(Ls8.OperandA(Snapshot())))
      modifies this
      ensures Valid()
      ensures Snapshot() == Ls8.ExecuteJeq(old(Snapshot()))
    {
      if fl == Ls8Alu.FL_EQUAL {
        ExecuteJmp();
      } else {
        pc := pc + 2;
      }
    }

    method ExecuteJne()
      requires Valid() && (fl != Ls8Alu.FL_EQUAL ==> Ls8Alu.IsReg(Ls8.OperandA(Snapshot())))
      modifies this
      ensures Valid()
      ensures Snapshot() == Ls8.ExecuteJne(old(Snapshot()))
    {
      if fl != Ls8Alu.FL_EQUAL {
        ExecuteJmp();
      } else {
        pc := pc + 2;
      }
    }

    method ExecutePra()
      requires Valid() && Ls8Alu.IsReg(Ls8.OperandA(Snapshot()))
      modifies this
      ensures Valid()
      ensures Snapshot() == Ls8.ExecutePra(old(Snapshot()))
    {
      var a := OperandA();
      var v := reg[a];
      if 0 <= v <= Ls8.MAX_CODE_POINT {
        out := out + [Ls8.Character(v)];
      } else {
        fault := Some(Ls8.BadCharacter(v));
      }
    }

    /** `execute_AST`: the stars are appended one by one, then printed. */
    method ExecuteAst()
      requires Valid() && Ls8Alu.IsReg(Ls8.OperandA(Snapshot()))
      modifies this
      ensures Valid()
      ensures Snapshot() == Ls8.ExecuteAst(old(Snapshot()))
    {
      var a := OperandA();
      var n := reg[a];
      var asts: string := "";
      var i := 0;
      while i < n
        invariant 0 <= i && (n < 0 ==> i == 0) && (n >= 0 ==> i <= n)
        invariant asts == seq(i, _ => '*')
        decreases n - i
      {
        asts := asts + "*";
        i := i + 1;
      }
      out := out + [Ls8.Stars(asts)];
    }

    /**
     * `self.branchtable[self.ir]()`: the handler method the table holds for the opcode,
     * found in one of five groups of opcodes.
     */
    method Dispatch(op: int)
      requires Valid() && Ls8.InBranchTable(op) && Ls8.HandlerReady(op, Snapshot())
      modifies this, ram, reg
      ensures Valid()
      ensures Snapshot() == Ls8.Execute(op, old(Snapshot()))
    {
      if op in ArithmeticOpcodes {
        DispatchArithmetic(op);
      } else if op in BitwiseOpcodes {
        DispatchBitwise(op);
      } else if op in StackOpcodes {
        DispatchStack(op);
      } else if op in JumpOpcodes {
        DispatchJump(op);
      } else {
        DispatchOther(op);
      }
    }

    static const ArithmeticOpcodes: set<int> := {Ls8.MUL, Ls8.ADD, Ls8.SUB, Ls8.DIV, Ls8.MOD, Ls8.CMP, Ls8.ADDI}

    static const BitwiseOpcodes: set<int> := {Ls8.OR, Ls8.XOR, Ls8.NOT, Ls8.SHL, Ls8.SHR, Ls8.AND}

    static const StackOpcodes: set<int> := {Ls8.PUSH, Ls8.POP, Ls8.CALL, Ls8.RET}

    static const JumpOpcodes: set<int> := {Ls8.JMP, Ls8.JEQ, Ls8.JNE}

    static const OtherOpcodes: set<int> := {Ls8.HLT, Ls8.LDI, Ls8.PRN, Ls8.AST, Ls8.PRA, Ls8.ST}

    /** Dispatch among the handlers that call `alu` with an arithmetic operation or CMP; the last branch is ADDI, the one left. */
    method DispatchArithmetic(op: int)
      requires Valid() && op in ArithmeticOpcodes && Ls8.HandlerReady(op, Snapshot())
      modifies this, reg
      ensures Valid()
      ensures Snapshot() == Ls8.Execute(op, old(Snapshot()))
    {
      if op == Ls8.MUL {
        ExecuteMul();
      } else if op == Ls8.ADD {
        ExecuteAdd();
      } else if op == Ls8.SUB {
        ExecuteSub();
      } else if op == Ls8.DIV {
        ExecuteDiv();
      } else if op == Ls8.MOD {
        ExecuteMod();
      } else if op == Ls8.CMP {
        ExecuteCmp();
      } else {
        ExecuteAddi();
      }
    }

    /** Dispatch among the handlers that call `alu` with a bitwise operation; the last branch is AND, the one left. */
    method DispatchBitwise(op: int)
      requires Valid() && op in BitwiseOpcodes && Ls8.HandlerReady(op, Snapshot())
      modifies this, reg
      ensures Valid()
      ensures Snapshot() == Ls8.Execute(op, old(Snapshot()))
    {
      if op == Ls8.OR {
        ExecuteOr();
      } else if op == Ls8.XOR {
        ExecuteXor();
      } else if op == Ls8.NOT {
        ExecuteNot();
      } else if op == Ls8.SHL {
        ExecuteShl();
      } else if op == Ls8.SHR {
        ExecuteShr();
      } else {
        ExecuteAnd();
      }
    }

    /** Dispatch among the handlers that use the stack; the last branch is RET, the one left. */
    method DispatchStack(op: int)
      requires Valid() && op in StackOpcodes && Ls8.HandlerReady(op, Snapshot())
      modifies this, ram, reg
      ensures Valid()
      ensures Snapshot() == Ls8.Execute(op, old(Snapshot()))
    {
      if op == Ls8.PUSH {
        ExecutePush();
      } else if op == Ls8.POP {
        ExecutePop();
      } else if op == Ls8.CALL {
        ExecuteCall();
      } else {
        ExecuteRet();
      }
    }

    /** Dispatch among the jumps; the last branch is JNE, the one left. */
    method DispatchJump(op: int)
      requires Valid() && op in JumpOpcodes && Ls8.HandlerReady(op, Snapshot())
      modifies this
      ensures Valid()
      ensures Snapshot() == Ls8.Execute(op, old(Snapshot()))
    {
      if op == Ls8.JMP {
        ExecuteJmp();
      } else if op == Ls8.JEQ {
        ExecuteJeq();
      } else {
        ExecuteJne();
      }
    }

    /** Dispatch among the remaining handlers; the last branch is ST, the one left. */
    method DispatchOther(op: int)
      requires Valid() && op in OtherOpcodes && Ls8.HandlerReady(op, Snapshot())
      modifies this, ram, reg
      ensures Valid()
      ensures Snapshot() == Ls8.Execute(op, old(Snapshot()))
    {
      if op == Ls8.HLT {
        ExecuteHlt();
      } else if op == Ls8.LDI {
        ExecuteLdi();
      } else if op == Ls8.PRN {
        ExecutePrn();
      } else if op == Ls8.AST {
        ExecuteAst();
      } else if op == Ls8.PRA {
        ExecutePra();
      } else {
        ExecuteSt();
      }
    }

    /** One turn of the `run` loop. */
    method Step()
      requires Valid() && Ls8.Running(Snapshot()) && Ls8.CanStep(Snapshot())
      modifies this, ram, reg
      ensures Valid()
      ensures Snapshot() == Ls8.Step(old(Snapshot()))
    {
      ir := RamRead(pc);
      if Ls8.InBranchTable(ir) {
        Dispatch(ir);
      } else {
        fault := Some(Ls8.UnknownInstruction(ir));
        return;
      }
      if fault.None? && !Ls8.SetsPc(ir) {
        pc := pc + Ls8.InstructionSize(ir);
      }
    }

    /** `run`, for at most `fuel` turns. */
    method Run(fuel: nat)
      requires Valid() && Ls8.Covered(Snapshot(), fuel)
      modifies this, ram, reg
      ensures Valid()
      ensures Snapshot() == Ls8.Run(old(Snapshot()), fuel)
    {
      var n := fuel;
      ghost var target := Ls8.Run(Snapshot(), fuel);
      while n > 0 && !halted && fault.None?
        invariant Ls8.RunsTo(Snapshot(), n, target)
        decreases n
      {
        Step();
        n := n - 1;
      }
    }
  }
}
