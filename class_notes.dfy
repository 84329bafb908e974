/**
 * The four-instruction interpreter of some_classnotes.py: a `while not halted` loop over
 * a list `memory`, a list `register` of eight Python integers and a program counter.
 * `print` becomes an output trace; `sys.exit(1)` and the IndexError Python raises for an
 * index past the end of a list become final statuses.
 */
module ClassNotes {
  const PRINT_BEEJ: int := 1
  const HALT: int := 2
  const SAVE_REG: int := 3
  const PRINT_REG: int := 4

  /** The program the script runs. */
  const MEMORY: seq<int> := [PRINT_BEEJ, SAVE_REG, 1, 37, PRINT_REG, 1, PRINT_BEEJ, HALT]

  /** One printed line. */
  datatype Line = Beej | Number(n: int) | Unknown(instruction: int)

  /** Whether the loop goes on, and how it ended when it does not. */
  datatype Status = Running | Halted | Exited(code: int) | IndexError

  datatype State = State(register: seq<int>, pc: nat, status: Status, out: seq<Line>)

  /** `register = [0] * 8`, `pc = 0`, `halted = False`, nothing printed. */
  function Start(): (s: State)
    ensures |s.register| == 8 && s.pc == 0 && s.status == Running && s.out == []
    ensures forall j :: 0 <= j < 8 ==> s.register[j] == 0
  {
    State(seq(8, _ => 0), 0, Running, [])
  }

  /** Python accepts an index i into a list of length n when -n <= i < n. */
  predicate ValidIndex(n: nat, i: int) {
    -(n as int) <= i < n
  }

  /** The position a valid Python index denotes: negative indices count from the end. */
  function Slot(n: nat, i: int): (k: nat)
    requires ValidIndex(n, i)
    ensures k < n
  {
    if i >= 0 then i else n + i
  }

  predicate Fits(memory: seq<int>, s: State) {
    |s.register| == 8 && s.pc <= |memory|
  }

  /** One turn of the `while not halted` loop. */
  function Step(memory: seq<int>, s: State): (r: State)
    requires Fits(memory, s) && s.status == Running
    ensures Fits(memory, r)
    // every turn that keeps the loop going moves pc forward
    ensures r.status == Running ==> r.pc > s.pc
    // output is only ever appended to
    ensures s.out <= r.out
  {
    var pc := s.pc;
    if pc >= |memory| then s.(status := IndexError)
    else
      var instruction := memory[pc];
      if instruction == PRINT_BEEJ then
        s.(out := s.out + [Beej], pc := pc + 1)
      else if instruction == HALT then
        s.(status := Halted, pc := pc + 1)
      else if instruction == SAVE_REG then
        if pc + 2 >= |memory| || !ValidIndex(8, memory[pc + 1]) then s.(status := IndexError)
        else s.(register := s.register[Slot(8, memory[pc + 1]) := memory[pc + 2]], pc := pc + 3)
      else if instruction == PRINT_REG then
        if pc + 1 >= |memory| || !ValidIndex(8, memory[pc + 1]) then s.(status := IndexError)
        else s.(out := s.out + [Number(s.register[Slot(8, memory[pc + 1])])], pc := pc + 2)
      else
        s.(out := s.out + [Unknown(instruction)], status := Exited(1))
  }

  /** The whole loop. It always stops, since pc grows until `memory[pc]` raises or HALT runs. */
  function Run(memory: seq<int>, s: State): (r: State)
    requires Fits(memory, s)
    ensures Fits(memory, r) && r.status != Running
    ensures s.status == Running || r == s
    ensures s.out <= r.out
    decreases |memory| - s.pc, s.status == Running
  {
    if s.status != Running then s else Run(memory, Step(memory, s))
  }

  /** The script itself, on any `memory`: the loop with `register` as an array updated in place. */
  method Interpret(memory: seq<int>) returns (register: array<int>, pc: nat, status: Status, out: seq<Line>)
    ensures fresh(register) && register.Length == 8
    ensures State(register[..], pc, status, out) == Run(memory, Start())
  {
    register := new int[8](_ => 0);
    pc := 0;
    status := Running;
    out := [];
    assert register[..] == Start().register;
    while status == Running
      invariant register.Length == 8 && pc <= |memory|
      invariant Run(memory, State(register[..], pc, status, out)) == Run(memory, Start())
      decreases |memory| - pc, status == Running
    {
      ghost var before := State(register[..], pc, status, out);
      if pc >= |memory| {
        status := IndexError;
      } else {
        var instruction := memory[pc];
        if instruction == PRINT_BEEJ {
          out := out + [Beej];
          pc := pc + 1;
        } else if instruction == HALT {
          status := Halted;
          pc := pc + 1;
        } else if instruction == SAVE_REG {
          if pc + 2 >= |memory| || !ValidIndex(8, memory[pc + 1]) {
            status := IndexError;
          } else {
            register[Slot(8, memory[pc + 1])] := memory[pc + 2];
            pc := pc + 3;
          }
        } else if instruction == PRINT_REG {
          if pc + 1 >= |memory| || !ValidIndex(8, memory[pc + 1]) {
            status := IndexError;
          } else {
            out := out + [Number(register[Slot(8, memory[pc + 1])])];
            pc := pc + 2;
          }
        } else {
          out := out + [Unknown(instruction)];
          status := Exited(1);
        }
      }
      assert State(register[..], pc, status, out) == Step(memory, before);
    }
  }

  // Single instructions

  /** PRINT_BEEJ prints "Beej!" and moves to the next byte. */
  lemma PrintBeejStep(memory: seq<int>, s: State)
    requires Fits(memory, s) && s.status == Running && s.pc < |memory| && memory[s.pc] == PRINT_BEEJ
    ensures Step(memory, s) == s.(out := s.out + [Beej], pc := s.pc + 1)
  {
  }

  /** HALT ends the loop after moving pc past itself. */
  lemma HaltStep(memory: seq<int>, s: State)
    requires Fits(memory, s) && s.status == Running && s.pc < |memory| && memory[s.pc] == HALT
    ensures Step(memory, s) == s.(status := Halted, pc := s.pc + 1)
    ensures Run(memory, s) == Step(memory, s)
  {
  }

  /** SAVE_REG r v stores v in register r, touches no other register and skips its operands. */
  lemma SaveRegStep(memory: seq<int>, s: State)
    requires Fits(memory, s) && s.status == Running && s.pc + 2 < |memory| && memory[s.pc] == SAVE_REG
    requires ValidIndex(8, memory[s.pc + 1])
    ensures var r := Step(memory, s);
      var k := Slot(8, memory[s.pc + 1]);
      r.status == Running && r.pc == s.pc + 3 && r.out == s.out &&
      |r.register| == 8 && r.register[k] == memory[s.pc + 2] &&
      (forall j :: 0 <= j < 8 && j != k ==> r.register[j] == s.register[j])
  {
  }

  /** PRINT_REG r prints register r, changes no register and skips its operand. */
  lemma PrintRegStep(memory: seq<int>, s: State)
    requires Fits(memory, s) && s.status == Running && s.pc + 1 < |memory| && memory[s.pc] == PRINT_REG
    requires ValidIndex(8, memory[s.pc + 1])
    ensures var r := Step(memory, s);
      r.status == Running && r.pc == s.pc + 2 && r.register == s.register &&
      r.out == s.out + [Number(s.register[Slot(8, memory[s.pc + 1])])]
  {
  }

  /** An operand past the end of `memory`, or a register index outside -8..7, raises IndexError. */
  lemma OperandIndexError(memory: seq<int>, s: State)
    requires Fits(memory, s) && s.status == Running && s.pc < |memory|
    requires memory[s.pc] == SAVE_REG || memory[s.pc] == PRINT_REG
    requires var n := if memory[s.pc] == SAVE_REG then 2 else 1;
      s.pc + n >= |memory| || !ValidIndex(8, memory[s.pc + 1])
    ensures Step(memory, s) == s.(status := IndexError)
  {
  }

  /** Running off the end of `memory` raises IndexError. */
  lemma FetchIndexError(memory: seq<int>, s: State)
    requires Fits(memory, s) && s.status == Running && s.pc == |memory|
    ensures Step(memory, s) == s.(status := IndexError)
    ensures Run(memory, s) == s.(status := IndexError)
  {
  }

  /** Any other instruction value prints its message and exits with status 1. */
  lemma UnknownStep(memory: seq<int>, s: State)
    requires Fits(memory, s) && s.status == Running && s.pc < |memory|
    requires !(memory[s.pc] in {PRINT_BEEJ, HALT, SAVE_REG, PRINT_REG})
    ensures var r := Step(memory, s);
      r.status == Exited(1) && r.out == s.out + [Unknown(memory[s.pc])] &&
      r.register == s.register && r.pc == s.pc
  {
  }

  // The loop as a whole

  /** Run takes one Step and goes on from there while the loop is running. */
  lemma RunUnfold(memory: seq<int>, s: State)
    requires Fits(memory, s) && s.status == Running
    ensures Run(memory, s) == Run(memory, Step(memory, s))
  {
  }

  /** The loop ends only by HALT, by an IndexError or by `sys.exit(1)`. */
  lemma {:induction false} RunEndings(memory: seq<int>, s: State)
    requires Fits(memory, s) && s.status == Running
    ensures Run(memory, s).status in {Halted, IndexError, Exited(1)}
    decreases |memory| - s.pc
  {
    var t := Step(memory, s);
    if t.status == Running {
      RunEndings(memory, t);
    } else {
      assert Run(memory, t) == t;
    }
  }

  /** The script's own program prints "Beej!", 37, "Beej!" and halts at pc 8 with R1 = 37. */
  lemma ProgramRun()
    ensures var r := Run(MEMORY, Start());
      r.status == Halted && r.out == [Beej, Number(37), Beej] && r.pc == 8 &&
      r.register[1] == 37 && (forall j :: 0 <= j < 8 && j != 1 ==> r.register[j] == 0)
  {
    var s0 := Start();
    var s1 := State(s0.register, 1, Running, [Beej]);
    var s2 := State(s0.register[1 := 37], 4, Running, [Beej]);
    var s3 := State(s2.register, 6, Running, [Beej, Number(37)]);
    var s4 := State(s2.register, 7, Running, [Beej, Number(37), Beej]);
    assert |MEMORY| == 8 && MEMORY[0] == PRINT_BEEJ && MEMORY[1] == SAVE_REG && MEMORY[2] == 1;
    assert MEMORY[3] == 37 && MEMORY[4] == PRINT_REG && MEMORY[5] == 1 && MEMORY[6] == PRINT_BEEJ;
    assert MEMORY[7] == HALT;
    PrintBeejStep(MEMORY, s0);
    assert Step(MEMORY, s0) == s1;
    RunUnfold(MEMORY, s0);
    SaveRegStep(MEMORY, s1);
    assert Step(MEMORY, s1) == s2;
    RunUnfold(MEMORY, s1);
    PrintRegStep(MEMORY, s2);
    assert Step(MEMORY, s2) == s3;
    RunUnfold(MEMORY, s2);
    PrintBeejStep(MEMORY, s3);
    assert Step(MEMORY, s3) == s4;
    RunUnfold(MEMORY, s3);
    HaltStep(MEMORY, s4);
    assert Run(MEMORY, s4) == State(s2.register, 8, Halted, s4.out);
  }

  /** Running the script: the imperative loop on its own `memory`. */
  method RunScript() returns (register: array<int>, pc: nat, status: Status, out: seq<Line>)
    ensures register.Length == 8 && register[1] == 37
    ensures status == Halted && pc == 8 && out == [Beej, Number(37), Beej]
  {
    register, pc, status, out := Interpret(MEMORY);
    ProgramRun();
  }
}
