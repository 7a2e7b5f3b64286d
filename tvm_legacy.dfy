/** The older virtual machine of include/tvm.h, the one the demo driver
    src/tvm.c runs: an untagged 32-bit operand stack, a program array, an
    instruction pointer and a halted flag. There is no return stack, DUP, JMP
    and JNZ only advance `ip`, and the float opcodes do nothing at all.

    `Step` is one `tvm_exec_opcode` and `Run` is `tvm_run`, on a snapshot
    `State`; the class `Machine` keeps the same state in arrays. */
module TvmLegacy {
  import opened Words

  const STACK_CAPACITY: nat := 1024
  const PROGRAM_CAPACITY: nat := 1024

  datatype Exception = Ok | StackUnderflow | StackOverflow | InvalidInstruction | DivisionByZero

  /** `exception_to_cstr` (its default branch is unreachable for these five values). */
  function ExceptionToCstr(e: Exception): (s: string)
    ensures |s| > 7 && s[..7] == "EXCEPT_"
  {
    match e
    case Ok => "EXCEPT_OK"
    case StackUnderflow => "EXCEPT_STACK_UNDERFLOW"
    case StackOverflow => "EXCEPT_STACK_OVERFLOW"
    case InvalidInstruction => "EXCEPT_INVALID_INSTRUCTION"
    case DivisionByZero => "EXCEPT_DIVISION_BY_ZERO"
  }

  /** Distinct exceptions have distinct names. */
  lemma ExceptionNamesDistinct(e1: Exception, e2: Exception)
    ensures ExceptionToCstr(e1) == ExceptionToCstr(e2) ==> e1 == e2
  {
  }

  datatype ArithOp = Add | Sub | Mult | Div | Mod
  datatype FloatOp = AddF | SubF | MultF | DivF

  /** `optype_t` of this header (15 enumerators, grouped); `Unknown` is any other value. */
  datatype OpType = Nop | Push | Arith(a: ArithOp) | Dup | Float(f: FloatOp) | Jmp | Jnz | Halt
                  | Unknown(code: int)

  /** `opcode_t`; the `object_t` union has no tag and is kept as its raw bits. */
  datatype Opcode = Opcode(op: OpType, operand: u32)

  const ZERO_OPCODE: Opcode := Opcode(Nop, 0)

  datatype State = State(stack: seq<u32>, sp: nat, program: seq<Opcode>, size: nat, ip: u32, halted: bool)

  predicate Valid(s: State) {
    |s.stack| == STACK_CAPACITY && s.sp <= STACK_CAPACITY &&
    |s.program| == PROGRAM_CAPACITY && s.size <= PROGRAM_CAPACITY
  }

  /** The fetch `program[ip]` is in bounds and a PUSH (unchecked) writes inside the stack. */
  predicate Defined(s: State)
    requires Valid(s)
  {
    s.ip < PROGRAM_CAPACITY && (s.program[s.ip].op == Push ==> s.sp < STACK_CAPACITY)
  }

  function OpAt(s: State): OpType
    requires Valid(s) && s.ip < PROGRAM_CAPACITY
  {
    s.program[s.ip].op
  }

  datatype StepResult = StepResult(except: Exception, next: State)

  /** Net effect of a successful step on `sp`. */
  function StackDelta(op: OpType): int {
    match op
    case Push => 1
    case Arith(_) => -1
    case _ => 0
  }

  /** Net effect of a successful step on `ip`: the float stubs `break` before
      their `ip++`, every other opcode advances by one. */
  function IpDelta(op: OpType): int {
    if op.Float? then 0 else 1
  }

  /** What every step promises: a fault changes nothing; the program is never
      written; on success `sp` and `ip` move by the opcode's static deltas;
      only HALT sets `halted`. */
  ghost predicate Conforms(s: State, r: StepResult)
    requires Valid(s) && s.ip < PROGRAM_CAPACITY
  {
    && Valid(r.next)
    && (r.except != Ok ==> r.next == s)
    && r.next.program == s.program && r.next.size == s.size
    && (r.next.halted <==> s.halted || (r.except == Ok && OpAt(s) == Halt))
    && (r.except == Ok ==> r.next.sp == s.sp + StackDelta(OpAt(s)) && r.next.ip == s.ip + IpDelta(OpAt(s)))
  }

  /** The bits ADD, SUB, MULT, DIV and MOD store in slot sp-2: the `int32_t`
      operation, wrapped to 32 bits (C leaves signed overflow undefined). */
  function ArithValue(op: ArithOp, second: u32, top: u32): u32
    requires (op == Div || op == Mod) ==> top != 0
  {
    var a, b := ToSigned(second), ToSigned(top);
    match op
    case Add => FromSigned(a + b)
    case Sub => FromSigned(a - b)
    case Mult => FromSigned(a * b)
    case Div => FromSigned(CDiv(a, b))
    case Mod => FromSigned(CRem(a, b))
  }

  /** ADD, SUB, MULT, DIV and MOD: underflow, then overflow, then the divisor. */
  function StepArith(s: State): (r: StepResult)
    requires Valid(s) && s.ip < PROGRAM_CAPACITY && OpAt(s).Arith?
    ensures Conforms(s, r)
  {
    var op := s.program[s.ip].op.a;
    if s.sp < 2 then StepResult(StackUnderflow, s)
    else if s.sp >= STACK_CAPACITY then StepResult(StackOverflow, s)
    else if (op == Div || op == Mod) && s.stack[s.sp - 1] == 0 then StepResult(DivisionByZero, s)
    else
      StepResult(Ok, s.(stack := s.stack[s.sp - 2 := ArithValue(op, s.stack[s.sp - 2], s.stack[s.sp - 1])],
                        sp := s.sp - 1, ip := s.ip + 1))
  }

  /** `tvm_exec_opcode`. */
  function Step(s: State): (r: StepResult)
    requires Valid(s) && Defined(s)
    ensures Conforms(s, r)
    ensures r.except == InvalidInstruction <==> OpAt(s).Unknown?
  {
    var inst := s.program[s.ip];
    match inst.op
    case Nop => StepResult(Ok, s.(ip := s.ip + 1))
    case Push => StepResult(Ok, s.(stack := s.stack[s.sp := inst.operand], sp := s.sp + 1, ip := s.ip + 1))
    case Arith(_) => StepArith(s)
    case Dup => StepResult(Ok, s.(ip := s.ip + 1))
    case Float(_) => StepResult(Ok, s)
    case Jmp => StepResult(Ok, s.(ip := s.ip + 1))
    case Jnz => StepResult(Ok, s.(ip := s.ip + 1))
    case Halt => StepResult(Ok, s.(halted := true, ip := s.ip + 1))
    case Unknown(_) => StepResult(InvalidInstruction, s)
  }

  datatype RunOutcome = Exited | Faulted(e: Exception) | Undefined | OutOfFuel
  datatype RunResult = RunResult(outcome: RunOutcome, final: State)

  predicate Running(s: State) {
    !s.halted && s.ip <= s.size
  }

  /** `tvm_run` for at most `fuel` steps (a fault is reported and ends the process). */
  function Run(s: State, fuel: nat): (r: RunResult)
    requires Valid(s)
    ensures Valid(r.final) && r.final.program == s.program && r.final.size == s.size
    ensures r.outcome == Exited <==> !Running(r.final)
    ensures r.outcome.Faulted? ==> r.outcome.e != Ok
    decreases fuel
  {
    if !Running(s) then RunResult(Exited, s)
    else if fuel == 0 then RunResult(OutOfFuel, s)
    else if !Defined(s) then RunResult(Undefined, s)
    else
      var r := Step(s);
      if r.except != Ok then RunResult(Faulted(r.except), r.next)
      else Run(r.next, fuel - 1)
  }

  lemma RunStops(s: State, fuel: nat)
    requires Valid(s)
    ensures !Running(s) ==> Run(s, fuel) == RunResult(Exited, s)
    ensures Running(s) && fuel == 0 ==> Run(s, fuel) == RunResult(OutOfFuel, s)
    ensures Running(s) && fuel > 0 && !Defined(s) ==> Run(s, fuel) == RunResult(Undefined, s)
  {
  }

  lemma RunOneStep(s: State, fuel: nat)
    requires Valid(s) && Running(s) && Defined(s) && fuel > 0
    ensures Step(s).except != Ok ==> Run(s, fuel) == RunResult(Faulted(Step(s).except), s)
    ensures Step(s).except == Ok ==> Run(s, fuel) == Run(Step(s).next, fuel - 1)
  {
  }

  // ---- One-instruction facts ------------------------------------------------

  /** PUSH stores the operand at stack[sp] and advances sp and ip; it checks
      no capacity (a PUSH on a full stack is outside `Defined`). */
  lemma PushStep(s: State)
    requires Valid(s) && Defined(s) && OpAt(s) == Push
    ensures Step(s) == StepResult(Ok, s.(stack := s.stack[s.sp := s.program[s.ip].operand], sp := s.sp + 1, ip := s.ip + 1))
  {
  }

  /** With 2 <= sp < capacity (and a nonzero divisor), slot sp-2 receives
      (second op top) and sp drops by one; nothing else changes but ip. */
  lemma ArithStep(s: State)
    requires Valid(s) && Defined(s) && OpAt(s).Arith? && 2 <= s.sp < STACK_CAPACITY
    requires OpAt(s).a in {Div, Mod} ==> s.stack[s.sp - 1] != 0
    ensures Step(s) == StepResult(Ok, s.(
      stack := s.stack[s.sp - 2 := ArithValue(OpAt(s).a, s.stack[s.sp - 2], s.stack[s.sp - 1])],
      sp := s.sp - 1, ip := s.ip + 1))
  {
    assert Step(s) == StepArith(s);
  }

  /** The arithmetic faults, in the order they are checked, leave the state as it was. */
  lemma ArithFaults(s: State)
    requires Valid(s) && Defined(s) && OpAt(s).Arith?
    ensures s.sp < 2 ==> Step(s) == StepResult(StackUnderflow, s)
    ensures 2 <= s.sp && s.sp >= STACK_CAPACITY ==> Step(s) == StepResult(StackOverflow, s)
    ensures 2 <= s.sp < STACK_CAPACITY && OpAt(s).a in {Div, Mod} && s.stack[s.sp - 1] == 0 ==>
              Step(s) == StepResult(DivisionByZero, s)
  {
    assert Step(s) == StepArith(s);
  }

  /** DUP, JMP and JNZ are stubs: they advance ip and touch nothing else. */
  lemma StubStep(s: State)
    requires Valid(s) && Defined(s) && OpAt(s) in {Dup, Jmp, Jnz}
    ensures Step(s) == StepResult(Ok, s.(ip := s.ip + 1))
  {
  }

  /** ADDF, SUBF, MULTF and DIVF report success and change nothing, not even ip. */
  lemma FloatStubStep(s: State)
    requires Valid(s) && Defined(s) && OpAt(s).Float?
    ensures Step(s) == StepResult(Ok, s)
  {
  }

  /** So a run that reaches one of them never gets past it: whatever the fuel,
      it ends only by running out, at the same state. */
  lemma {:induction false} FloatStubSpins(s: State, fuel: nat)
    requires Valid(s) && Running(s) && Defined(s) && OpAt(s).Float?
    ensures Run(s, fuel) == RunResult(OutOfFuel, s)
    decreases fuel
  {
    if fuel > 0 {
      FloatStubStep(s);
      RunOneStep(s, fuel);
      FloatStubSpins(s, fuel - 1);
    }
  }

  /** HALT sets the flag and advances ip. */
  lemma HaltStep(s: State)
    requires Valid(s) && Defined(s) && OpAt(s) == Halt
    ensures Step(s) == StepResult(Ok, s.(halted := true, ip := s.ip + 1))
  {
  }

  // ---- The demo program of src/tvm.c ------------------------------------------

  /** The state `tvm_init` returns. */
  function InitialState(): (s: State)
    ensures Valid(s) && s.sp == 0 && s.ip == 0 && !s.halted && s.size == 0
  {
    State(seq(STACK_CAPACITY, _ => 0), 0, seq(PROGRAM_CAPACITY, _ => ZERO_OPCODE), 0, 0, false)
  }

  /** `tvm_load_program_from_memory`. */
  function LoadProgram(s: State, program: seq<Opcode>): (t: State)
    requires Valid(s) && |program| <= PROGRAM_CAPACITY
    ensures Valid(t) && t.size == |program| && t.program[..|program|] == program
    ensures t.program[|program|..] == s.program[|program|..]
    ensures t.stack == s.stack && t.sp == s.sp && t.ip == s.ip && t.halted == s.halted
  {
    s.(program := program + s.program[|program|..], size := |program|)
  }

  const DEMO_PROGRAM: seq<Opcode> := [Opcode(Push, 3), Opcode(Push, 5), Opcode(Arith(Add), 0), Opcode(Halt, 0)]

  predicate Ready(s: State) {
    Valid(s) && s.sp == 0 && s.ip == 0 && !s.halted
  }

  lemma DemoLoaded(s: State)
    requires Ready(s)
    ensures var t := LoadProgram(s, DEMO_PROGRAM);
      Ready(t) && t.size == 4 && t.program[0] == DEMO_PROGRAM[0] && t.program[1] == DEMO_PROGRAM[1] &&
      t.program[2] == DEMO_PROGRAM[2] && t.program[3] == DEMO_PROGRAM[3]
  {
    var t := LoadProgram(s, DEMO_PROGRAM);
    assert t.program[..4] == DEMO_PROGRAM;
    assert t.program[0] == t.program[..4][0] && t.program[1] == t.program[..4][1];
    assert t.program[2] == t.program[..4][2] && t.program[3] == t.program[..4][3];
  }

  /** The two PUSHes of the demo. */
  lemma DemoPushes(t: State, fuel: nat)
    requires Ready(t) && t.size == 4 && t.program[0] == DEMO_PROGRAM[0] && t.program[1] == DEMO_PROGRAM[1]
    requires fuel >= 2
    ensures Run(t, fuel) == Run(t.(stack := t.stack[0 := 3][1 := 5], sp := 2, ip := 2), fuel - 1 - 1)
  {
    PushStep(t);
    RunOneStep(t, fuel);
    var t1 := t.(stack := t.stack[0 := 3], sp := 1, ip := 1);
    PushStep(t1);
    RunOneStep(t1, fuel - 1);
  }

  /** The ADD and HALT of the demo. */
  lemma DemoAddHalt(t: State)
    requires Valid(t) && !t.halted && t.size == 4 && t.ip == 2 && t.sp == 2
    requires t.program[2] == DEMO_PROGRAM[2] && t.program[3] == DEMO_PROGRAM[3]
    requires t.stack[0] == 3 && t.stack[1] == 5
    ensures var r := Run(t, 2);
      r.outcome == Exited && r.final.halted && r.final.sp == 1 && ToSigned(r.final.stack[0]) == 8
  {
    ArithStep(t);
    RunOneStep(t, 2);
    var t3 := t.(stack := t.stack[0 := ArithValue(Add, 3, 5)], sp := 1, ip := 3);
    assert ArithValue(Add, 3, 5) == 8;
    HaltStep(t3);
    RunOneStep(t3, 1);
  }

  /** src/tvm.c: [PUSH 3, PUSH 5, ADD, HALT] loaded into a fresh machine ends
      halted, with one value on the stack whose `i32` is 8. */
  lemma DemoProgramHalts(s: State)
    requires Ready(s)
    ensures var r := Run(LoadProgram(s, DEMO_PROGRAM), 4);
      r.outcome == Exited && r.final.halted && r.final.sp == 1 && ToSigned(r.final.stack[0]) == 8
  {
    var t := LoadProgram(s, DEMO_PROGRAM);
    DemoLoaded(s);
    DemoPushes(t, 4);
    DemoAddHalt(t.(stack := t.stack[0 := 3][1 := 5], sp := 2, ip := 2));
  }

  // ---- The machine as the C code holds it ------------------------------------

  class Machine {
    var stack: array<u32>
    var sp: nat
    var program: array<Opcode>
    var size: nat
    var ip: u32
    var halted: bool

    ghost predicate Inv()
      reads this
    {
      stack.Length == STACK_CAPACITY && program.Length == PROGRAM_CAPACITY &&
      sp <= STACK_CAPACITY && size <= PROGRAM_CAPACITY
    }

    function Snapshot(): (s: State)
      reads this, stack, program
      ensures Inv() ==> Valid(s)
    {
      State(stack[..], sp, program[..], size, ip, halted)
    }

    /** `tvm_init`. */
    constructor Init()
      ensures Inv() && Snapshot() == InitialState()
    {
      stack := new u32[STACK_CAPACITY](_ => 0);
      program := new Opcode[PROGRAM_CAPACITY](_ => ZERO_OPCODE);
      sp, size, ip, halted := 0, 0, 0, false;
      new;
      assert stack[..] == InitialState().stack;
      assert program[..] == InitialState().program;
    }

    /** `tvm_load_program_from_memory`: set the size, then copy (the memcpy). */
    method LoadProgramFromMemory(code: seq<Opcode>)
      requires Inv() && |code| <= PROGRAM_CAPACITY
      modifies this, program
      ensures Inv() && stack == old(stack) && program == old(program)
      ensures Snapshot() == LoadProgram(old(Snapshot()), code)
    {
      size := |code|;
      var i := 0;
      while i < |code|
        invariant 0 <= i <= |code| && Inv() && size == |code|
        invariant stack == old(stack) && program == old(program)
        invariant sp == old(sp) && ip == old(ip) && halted == old(halted)
        invariant program[..i] == code[..i]
        invariant program[i..] == old(program[..])[i..]
      {
        program[i] := code[i];
        i := i + 1;
      }
      assert program[..] == program[..|code|] + program[|code|..];
    }

    method ExecArith() returns (e: Exception)
      requires Inv() && ip < PROGRAM_CAPACITY && program[ip].op.Arith?
      modifies this, stack
      ensures Inv() && stack == old(stack) && program == old(program)
      ensures StepResult(e, Snapshot()) == StepArith(old(Snapshot()))
    {
      var op := program[ip].op.a;
      if sp < 2 {
        return StackUnderflow;
      } else if sp >= STACK_CAPACITY {
        return StackOverflow;
      }
      if (op == Div || op == Mod) && stack[sp - 1] == 0 {
        return DivisionByZero;
      }
      stack[sp - 2] := ArithValue(op, stack[sp - 2], stack[sp - 1]);
      sp := sp - 1;
      ip := ip + 1;
      return Ok;
    }

    /** `tvm_exec_opcode` (the stack dump it prints first is output only). */
    method ExecOpcode() returns (e: Exception)
      requires Inv() && Defined(Snapshot())
      modifies this, stack
      ensures Inv() && stack == old(stack) && program == old(program)
      ensures StepResult(e, Snapshot()) == Step(old(Snapshot()))
    {
      var inst := program[ip];
      e := Ok;
      match inst.op
      case Nop =>
        ip := ip + 1;
      case Push =>
        stack[sp] := inst.operand;
        sp := sp + 1;
        ip := ip + 1;
      case Arith(_) =>
        e := ExecArith();
      case Dup =>
        ip := ip + 1;
      case Float(_) =>
      case Jmp =>
        ip := ip + 1;
      case Jnz =>
        ip := ip + 1;
      case Halt =>
        halted := true;
        ip := ip + 1;
      case Unknown(_) =>
        e := InvalidInstruction;
    }

    /** One turn of the `tvm_run` loop from a state where its condition holds. */
    method Turn(fuel: nat) returns (stop: bool, outcome: RunOutcome, rest: nat)
      requires Inv() && Running(Snapshot())
      modifies this, stack
      ensures Inv() && stack == old(stack) && program == old(program)
      ensures stop ==> RunResult(outcome, Snapshot()) == Run(old(Snapshot()), fuel)
      ensures !stop ==> rest < fuel && Run(Snapshot(), rest) == Run(old(Snapshot()), fuel)
    {
      ghost var before := Snapshot();
      RunStops(before, fuel);
      if fuel == 0 {
        return true, OutOfFuel, 0;
      }
      if !(ip < PROGRAM_CAPACITY && (program[ip].op == Push ==> sp < STACK_CAPACITY)) {
        return true, Undefined, fuel;
      }
      rest := fuel - 1;
      RunOneStep(before, fuel);
      var e := ExecOpcode();
      if e != Ok {
        return true, Faulted(e), rest;
      }
      return false, Exited, rest;
    }

    /** `tvm_run`, for at most `fuel` steps. */
    method RunLoop(fuel: nat) returns (outcome: RunOutcome)
      requires Inv()
      modifies this, stack
      ensures Inv() && stack == old(stack) && program == old(program)
      ensures RunResult(outcome, Snapshot()) == Run(old(Snapshot()), fuel)
    {
      ghost var goal := Run(Snapshot(), fuel);
      var f := fuel;
      while !halted && ip as int <= size
        invariant Inv() && stack == old(stack) && program == old(program)
        invariant Run(Snapshot(), f) == goal
        decreases f
      {
        var stop;
        stop, outcome, f := Turn(f);
        if stop {
          return;
        }
      }
      RunStops(Snapshot(), f);
      return Exited;
    }
  }
}
