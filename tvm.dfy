/** The virtual machine of include/tvm/tvm.h: an operand stack, a return stack,
    an instruction pointer and a halted flag over a fixed opcode array.

    `Step` is the meaning of one `tvm_exec_opcode` call on a snapshot `State`;
    `Run` is the meaning of `tvm_run`. The class `Machine` holds the same state in
    arrays and its methods are proved to compute exactly `Step` and `Run`. */
module Tvm {
  import opened Words

  const STACK_CAPACITY: nat := 1024
  const PROGRAM_CAPACITY: nat := 1024
  const RETURN_STACK_CAPACITY: nat := 1024

  datatype Exception =
    | Ok
    | StackUnderflow
    | StackOverflow
    | InvalidInstruction
    | InvalidInstructionAccess
    | InvalidStackAccess
    | DivisionByZero

  /** `exception_to_cstr`. */
  function ExceptionToCstr(e: Exception): (s: string)
    ensures |s| > 7 && s[..7] == "EXCEPT_"
  {
    match e
    case Ok => "EXCEPT_OK"
    case StackUnderflow => "EXCEPT_STACK_UNDERFLOW"
    case StackOverflow => "EXCEPT_STACK_OVERFLOW"
    case InvalidInstruction => "EXCEPT_INVALID_INSTRUCTION"
    case InvalidInstructionAccess => "EXCEPT_INVALID_INSTRUCTION_ACCESS"
    case InvalidStackAccess => "EXCEPT_INVALID_STACK_ACCESS"
    case DivisionByZero => "EXCEPT_DIVISION_BY_ZERO"
  }

  /** Distinct exceptions have distinct names. */
  lemma ExceptionNamesDistinct(e1: Exception, e2: Exception)
    ensures ExceptionToCstr(e1) == ExceptionToCstr(e2) ==> e1 == e2
  {
  }

  /** The nine opcodes that pop two operands and leave one (OP_ADD..OP_MOD, OP_ADDF..OP_DIVF). */
  datatype BinaryOp = Add | Sub | Mult | Div | Mod | AddF | SubF | MultF | DivF

  /** The ten opcodes that rewrite the top slot (increments, decrements, casts). */
  datatype UnaryOp = Inc | IncF | Dec | DecF | CI2F | CI2U | CF2I | CF2U | CU2I | CU2F

  /** The ten comparisons, which push 0 or 1. */
  datatype CompareOp = Gt | GtF | Lt | LtF | Eq | EqF | Ge | GeF | Le | LeF

  /** `optype_t`: its 40 enumerators, grouped by the handler of `tvm_exec_opcode`
      that runs them. `Unknown` stands for any other value of the field (a program
      image can hold one). `Ordinal` gives the C value of each enumerator. */
  datatype OpType =
    | Nop | Push | Binary(bop: BinaryOp) | Dup | Cln | Swap | Unary(uop: UnaryOp)
    | Jmp | Jz | Jnz | Call | Ret | Compare(cop: CompareOp) | Halt
    | Unknown(code: int)

  /** The value of each enumerator in `optype_t` (declaration order, from OP_NOP = 0). */
  function Ordinal(op: OpType): int {
    match op
    case Nop => 0
    case Push => 1
    case Binary(Add) => 2
    case Binary(Sub) => 3
    case Binary(Mult) => 4
    case Binary(Div) => 5
    case Binary(Mod) => 6
    case Dup => 7
    case Cln => 8
    case Swap => 9
    case Binary(AddF) => 10
    case Binary(SubF) => 11
    case Binary(MultF) => 12
    case Binary(DivF) => 13
    case Unary(Inc) => 14
    case Unary(IncF) => 15
    case Unary(Dec) => 16
    case Unary(DecF) => 17
    case Jmp => 18
    case Jz => 19
    case Jnz => 20
    case Call => 21
    case Ret => 22
    case Unary(CI2F) => 23
    case Unary(CI2U) => 24
    case Unary(CF2I) => 25
    case Unary(CF2U) => 26
    case Unary(CU2I) => 27
    case Unary(CU2F) => 28
    case Compare(Gt) => 29
    case Compare(GtF) => 30
    case Compare(Lt) => 31
    case Compare(LtF) => 32
    case Compare(Eq) => 33
    case Compare(EqF) => 34
    case Compare(Ge) => 35
    case Compare(GeF) => 36
    case Compare(Le) => 37
    case Compare(LeF) => 38
    case Halt => 39
    case Unknown(c) => c
  }

  /** The opcode a raw `type` field denotes. */
  function OpTypeOf(n: int): OpType {
    match n
    case 0 => Nop
    case 1 => Push
    case 2 => Binary(Add)
    case 3 => Binary(Sub)
    case 4 => Binary(Mult)
    case 5 => Binary(Div)
    case 6 => Binary(Mod)
    case 7 => Dup
    case 8 => Cln
    case 9 => Swap
    case 10 => Binary(AddF)
    case 11 => Binary(SubF)
    case 12 => Binary(MultF)
    case 13 => Binary(DivF)
    case 14 => Unary(Inc)
    case 15 => Unary(IncF)
    case 16 => Unary(Dec)
    case 17 => Unary(DecF)
    case 18 => Jmp
    case 19 => Jz
    case 20 => Jnz
    case 21 => Call
    case 22 => Ret
    case 23 => Unary(CI2F)
    case 24 => Unary(CI2U)
    case 25 => Unary(CF2I)
    case 26 => Unary(CF2U)
    case 27 => Unary(CU2I)
    case 28 => Unary(CU2F)
    case 29 => Compare(Gt)
    case 30 => Compare(GtF)
    case 31 => Compare(Lt)
    case 32 => Compare(LtF)
    case 33 => Compare(Eq)
    case 34 => Compare(EqF)
    case 35 => Compare(Ge)
    case 36 => Compare(GeF)
    case 37 => Compare(Le)
    case 38 => Compare(LeF)
    case 39 => Halt
    case _ => Unknown(n)
  }

  /** An `OpType` that means what it says: `Unknown` never carries the
      value of a real enumerator. */
  predicate WellFormedOp(op: OpType) {
    op.Unknown? ==> !(0 <= op.code <= 39)
  }

  /** Every raw value reads back as itself. */
  lemma OrdinalOfOpTypeOf(n: int)
    ensures WellFormedOp(OpTypeOf(n)) && Ordinal(OpTypeOf(n)) == n
  {
  }

  /** Every well-formed opcode survives a trip through its C value, so the
      enumerator values are pairwise distinct. */
  lemma OpTypeOfOrdinal(op: OpType)
    requires WellFormedOp(op)
    ensures OpTypeOf(Ordinal(op)) == op
  {
  }

  /** `object_t`: a type tag and a 32-bit union, kept as its raw bits. The
      `ui32` view is `bits`, the `i32` view is `ToSigned(bits)`; the `f32` view is
      only ever handed to a `FloatUnit`. */
  datatype ObjectType = Address | Number
  datatype Object = Object(kind: ObjectType, bits: u32) {
    function I32(): int { ToSigned(bits) }
  }

  datatype Opcode = Opcode(op: OpType, operand: Object)

  /** All-zero memory, as `tvm_init` leaves it: zero is OP_NOP and OBJECT_TYPE_ADDRESS. */
  const ZERO_OBJECT: Object := Object(Address, 0)
  const ZERO_OPCODE: Opcode := Opcode(Nop, ZERO_OBJECT)

  /** IEEE-754 single precision is not modelled: the float opcodes take their
      results from these functions of the raw bits. */
  datatype FloatUnit = FloatUnit(
    arith: (BinaryOp, u32, u32) -> u32,     // ADDF..DIVF: (op, second, top) -> second op top
    unary: (UnaryOp, u32) -> u32,           // INCF, DECF, CI2F, CF2I, CF2U, CU2F
    compare: (CompareOp, u32, u32) -> bool) // GTF..LEF: (op, top, second) -> top op second

  /** A snapshot of `tvm_t` (the metadata table and program arena are not modelled). */
  datatype State = State(
    stack: seq<Object>, sp: nat,
    returnStack: seq<u32>, rsp: nat,
    code: seq<Opcode>, size: nat,
    ip: u32, halted: bool)

  /** The array sizes of `tvm_t`. The opcodes are not required to be
      `WellFormedOp`: a state whose code holds `Unknown(c)` with `c` in 0..39
      is junk, since in C the field holding `c` is that enumerator. `Step`
      raises INVALID_INSTRUCTION for every `Unknown`, which is C's behaviour
      only for values outside the enumeration. An opcode decoded from a raw
      field value with `OpTypeOf` is always well formed (`OrdinalOfOpTypeOf`). */
  predicate Valid(s: State) {
    && |s.stack| == STACK_CAPACITY && s.sp <= STACK_CAPACITY
    && |s.returnStack| == RETURN_STACK_CAPACITY && s.rsp <= RETURN_STACK_CAPACITY
    && |s.code| == PROGRAM_CAPACITY && s.size <= PROGRAM_CAPACITY
  }

  /** The C step has defined behaviour: the fetch `code[ip]` is inside the array
      and a PUSH (which checks no capacity) writes inside the stack. */
  predicate Defined(s: State)
    requires Valid(s)
  {
    s.ip < PROGRAM_CAPACITY && (s.code[s.ip].op == Push ==> s.sp < STACK_CAPACITY)
  }

  datatype StepResult = StepResult(except: Exception, next: State)

  function Raise(e: Exception, s: State): StepResult { StepResult(e, s) }
  function Continue(s: State): StepResult { StepResult(Ok, s) }

  /** Net effect of a successful step on `sp`: an independent table of
      what each opcode pushes and pops. */
  function StackDelta(op: OpType): int {
    match op
    case Push | Dup | Cln | Compare(_) => 1
    case Binary(_) => -1
    case _ => 0
  }

  /** Net effect of a successful step on `rsp`. */
  function ReturnDelta(op: OpType): int {
    match op
    case Call => 1
    case Ret => -1
    case _ => 0
  }

  function OpAt(s: State): OpType
    requires Valid(s) && s.ip < PROGRAM_CAPACITY
  {
    s.code[s.ip].op
  }

  /** Opcodes that may set `ip` to something other than `ip + 1`. */
  predicate TransfersControl(op: OpType) {
    op.Jmp? || op.Jz? || op.Jnz? || op.Call? || op.Ret?
  }

  /** What every step promises, whatever the opcode: the state stays well
      formed; a fault changes nothing; the program is never written; on success
      `sp` and `rsp` move by the opcode's static deltas and every opcode that is
      not a jump, call or return advances `ip` by one; only HALT sets `halted`. */
  ghost predicate Conforms(s: State, r: StepResult)
    requires Valid(s) && s.ip < PROGRAM_CAPACITY
  {
    && Valid(r.next)
    && (r.except != Ok ==> r.next == s)
    && r.next.code == s.code && r.next.size == s.size
    && (r.next.halted <==> s.halted || (r.except == Ok && OpAt(s) == Halt))
    && (r.except == Ok ==>
          && r.next.sp == s.sp + StackDelta(OpAt(s))
          && r.next.rsp == s.rsp + ReturnDelta(OpAt(s))
          && (!TransfersControl(OpAt(s)) ==> r.next.ip == s.ip + 1))
  }

  /** The value ADD, SUB, MULT, DIV and MOD store, before wrapping to 32 bits
      (C leaves the signed overflow cases undefined; the model wraps). */
  function IntArith(op: BinaryOp, second: int, top: int): int
    requires op == Add || op == Sub || op == Mult || ((op == Div || op == Mod) && top != 0)
  {
    match op
    case Add => second + top
    case Sub => second - top
    case Mult => second * top
    case Div => CDiv(second, top)
    case Mod => CRem(second, top)
  }

  function IntCompare(op: CompareOp, top: int, second: int): bool
    requires op == Gt || op == Lt || op == Eq || op == Ge || op == Le
  {
    match op
    case Gt => top > second
    case Lt => top < second
    case Eq => top == second
    case Ge => top >= second
    case Le => top <= second
  }

  function SetBits(o: Object, b: u32): Object { o.(bits := b) }

  /** The bits ADD..DIVF leave in slot sp-2. */
  function BinaryValue(op: BinaryOp, fpu: FloatUnit, second: Object, top: Object): u32
    requires (op == Div || op == Mod) ==> top.bits != 0
  {
    match op
    case AddF | SubF | MultF | DivF => fpu.arith(op, second.bits, top.bits)
    case Add | Sub | Mult | Div | Mod => FromSigned(IntArith(op, second.I32(), top.I32()))
  }

  /** The bits INC..CU2F leave in the top slot. CI2U and CU2I convert between
      the `int32_t` and `uint32_t` views of the same bits, so they keep the bits. */
  function UnaryValue(op: UnaryOp, fpu: FloatUnit, top: Object): u32 {
    match op
    case Inc => FromSigned(top.I32() + 1)
    case Dec => FromSigned(top.I32() - 1)
    case CI2U | CU2I => top.bits
    case IncF | DecF | CI2F | CF2I | CF2U | CU2F => fpu.unary(op, top.bits)
  }

  /** The 0 or 1 a comparison pushes. */
  function CompareValue(op: CompareOp, fpu: FloatUnit, top: Object, second: Object): u32 {
    var holds := match op
      case GtF | LtF | EqF | GeF | LeF => fpu.compare(op, top.bits, second.bits)
      case Gt | Lt | Eq | Ge | Le => IntCompare(op, top.I32(), second.I32());
    if holds then 1 else 0
  }

  /** `q` with the slots `i` and `j` exchanged. */
  function Exchange<T>(q: seq<T>, i: nat, j: nat): (r: seq<T>)
    requires i < |q| && j < |q|
    ensures |r| == |q|
  {
    q[i := q[j]][j := q[i]]
  }

  /** ADD, SUB, MULT, DIV, MOD and their float counterparts: check, then
      combine the top two slots into slot sp-2. */
  function StepBinary(s: State, fpu: FloatUnit): (r: StepResult)
    requires Valid(s) && s.ip < PROGRAM_CAPACITY && OpAt(s).Binary?
    ensures Conforms(s, r) && r.except != InvalidInstruction
  {
    var op := s.code[s.ip].op.bop;
    if s.sp < 2 then Raise(StackUnderflow, s)
    else if s.sp >= STACK_CAPACITY then Raise(StackOverflow, s)
    else if (op == Div || op == Mod) && s.stack[s.sp - 1].bits == 0 then Raise(DivisionByZero, s)
    else
      var second, top := s.stack[s.sp - 2], s.stack[s.sp - 1];
      Continue(s.(stack := s.stack[s.sp - 2 := SetBits(second, BinaryValue(op, fpu, second, top))],
                  sp := s.sp - 1, ip := s.ip + 1))
  }

  /** DUP copies only the `i32` member, so the new slot keeps its old type tag. */
  function StepDup(s: State): (r: StepResult)
    requires Valid(s) && s.ip < PROGRAM_CAPACITY && OpAt(s) == Dup
    ensures Conforms(s, r) && r.except != InvalidInstruction
  {
    if s.sp < 1 then Raise(StackUnderflow, s)
    else if s.sp >= STACK_CAPACITY then Raise(StackOverflow, s)
    else Continue(s.(stack := s.stack[s.sp := SetBits(s.stack[s.sp], s.stack[s.sp - 1].bits)],
                     sp := s.sp + 1, ip := s.ip + 1))
  }

  /** CLN n copies the whole object n slots below the top onto the stack. */
  function StepCln(s: State): (r: StepResult)
    requires Valid(s) && s.ip < PROGRAM_CAPACITY && OpAt(s) == Cln
    ensures Conforms(s, r) && r.except != InvalidInstruction
  {
    var n := s.code[s.ip].operand.bits;
    if n >= s.sp then Raise(InvalidStackAccess, s)
    else if s.sp < 1 then Raise(StackUnderflow, s)
    else if s.sp >= STACK_CAPACITY then Raise(StackOverflow, s)
    else Continue(s.(stack := s.stack[s.sp := s.stack[s.sp - n - 1]], sp := s.sp + 1, ip := s.ip + 1))
  }

  /** SWAP n exchanges the top object with the one n slots below it. */
  function StepSwap(s: State): (r: StepResult)
    requires Valid(s) && s.ip < PROGRAM_CAPACITY && OpAt(s) == Swap
    ensures Conforms(s, r) && r.except != InvalidInstruction
  {
    var n := s.code[s.ip].operand.bits;
    if n >= s.sp then Raise(InvalidStackAccess, s)
    else if s.sp < 2 then Raise(StackUnderflow, s)
    else Continue(s.(stack := Exchange(s.stack, s.sp - 1, s.sp - n - 1), ip := s.ip + 1))
  }

  /** INC, DEC, INCF, DECF and the six casts: rewrite the top slot in place. */
  function StepUnary(s: State, fpu: FloatUnit): (r: StepResult)
    requires Valid(s) && s.ip < PROGRAM_CAPACITY && OpAt(s).Unary?
    ensures Conforms(s, r) && r.except != InvalidInstruction
  {
    var op := s.code[s.ip].op.uop;
    if s.sp < 1 then Raise(StackUnderflow, s)
    else
      var top := s.stack[s.sp - 1];
      Continue(s.(stack := s.stack[s.sp - 1 := SetBits(top, UnaryValue(op, fpu, top))], ip := s.ip + 1))
  }

  /** JMP: only targets below the program size are accepted. */
  function StepJmp(s: State): (r: StepResult)
    requires Valid(s) && s.ip < PROGRAM_CAPACITY && OpAt(s) == Jmp
    ensures Conforms(s, r) && r.except != InvalidInstruction
  {
    var target := s.code[s.ip].operand.bits;
    if target >= s.size then Raise(InvalidInstructionAccess, s)
    else Continue(s.(ip := target))
  }

  /** JZ and JNZ. The condition is read, not popped. */
  function StepCondJump(s: State): (r: StepResult)
    requires Valid(s) && s.ip < PROGRAM_CAPACITY && (OpAt(s) == Jz || OpAt(s) == Jnz)
    ensures Conforms(s, r) && r.except != InvalidInstruction
  {
    var target := s.code[s.ip].operand.bits;
    if s.sp < 1 then Raise(StackUnderflow, s)
    else if target >= s.size then Raise(InvalidInstructionAccess, s)
    else if (s.stack[s.sp - 1].bits == 0) == (OpAt(s) == Jz) then Continue(s.(ip := target))
    else Continue(s.(ip := s.ip + 1))
  }

  /** CALL pushes the return address ip+1 and jumps. */
  function StepCall(s: State): (r: StepResult)
    requires Valid(s) && s.ip < PROGRAM_CAPACITY && OpAt(s) == Call
    ensures Conforms(s, r) && r.except != InvalidInstruction
  {
    var target := s.code[s.ip].operand.bits;
    if s.rsp >= RETURN_STACK_CAPACITY then Raise(StackOverflow, s)
    else if target >= s.size then Raise(InvalidInstructionAccess, s)
    else Continue(s.(returnStack := s.returnStack[s.rsp := s.ip + 1], rsp := s.rsp + 1, ip := target))
  }

  /** RET pops the return address into ip (it is not range-checked). */
  function StepRet(s: State): (r: StepResult)
    requires Valid(s) && s.ip < PROGRAM_CAPACITY && OpAt(s) == Ret
    ensures Conforms(s, r) && r.except != InvalidInstruction
  {
    if s.rsp < 1 then Raise(StackUnderflow, s)
    else Continue(s.(ip := s.returnStack[s.rsp - 1], rsp := s.rsp - 1))
  }

  /** GT, LT, EQ, GE, LE and the float forms: push 1 if (top op second), else 0.
      Only the `i32` member of the new slot is written; both operands stay. */
  function StepCompare(s: State, fpu: FloatUnit): (r: StepResult)
    requires Valid(s) && s.ip < PROGRAM_CAPACITY && OpAt(s).Compare?
    ensures Conforms(s, r) && r.except != InvalidInstruction
  {
    var op := s.code[s.ip].op.cop;
    if s.sp < 2 then Raise(StackUnderflow, s)
    else if s.sp >= STACK_CAPACITY then Raise(StackOverflow, s)
    else
      var top, second := s.stack[s.sp - 1], s.stack[s.sp - 2];
      Continue(s.(stack := s.stack[s.sp := SetBits(s.stack[s.sp], CompareValue(op, fpu, top, second))],
                  sp := s.sp + 1, ip := s.ip + 1))
  }

  /** `tvm_exec_opcode`: one instruction. Every guard that fails returns its
      exception before anything is written. */
  function Step(s: State, fpu: FloatUnit): (r: StepResult)
    requires Valid(s) && Defined(s)
    ensures Conforms(s, r)
    ensures r.except == InvalidInstruction <==> OpAt(s).Unknown?
  {
    var inst := s.code[s.ip];
    match inst.op
    case Nop => Continue(s.(ip := s.ip + 1))
    case Push => Continue(s.(stack := s.stack[s.sp := inst.operand], sp := s.sp + 1, ip := s.ip + 1))
    case Binary(_) => StepBinary(s, fpu)
    case Dup => StepDup(s)
    case Cln => StepCln(s)
    case Swap => StepSwap(s)
    case Unary(_) => StepUnary(s, fpu)
    case Jmp => StepJmp(s)
    case Jz => StepCondJump(s)
    case Jnz => StepCondJump(s)
    case Call => StepCall(s)
    case Ret => StepRet(s)
    case Compare(_) => StepCompare(s, fpu)
    case Halt => Continue(s.(halted := true, ip := s.ip + 1))
    case Unknown(_) => Raise(InvalidInstruction, s)
  }

  /** How a `tvm_run` ends. `Exited` is the normal loop exit (halted, or ip past
      size); `Faulted` is the exception report followed by exit(1); `Undefined`
      marks a step whose C behaviour is undefined; `OutOfFuel` bounds the model. */
  datatype RunOutcome = Exited | Faulted(e: Exception) | Undefined | OutOfFuel

  /** The outcome, the last state, and the opcodes executed successfully in order. */
  datatype RunResult = RunResult(outcome: RunOutcome, final: State, trace: seq<OpType>)

  predicate Running(s: State) {
    !s.halted && s.ip <= s.size
  }

  /** `tvm_run` for at most `fuel` steps. */
  function Run(s: State, fpu: FloatUnit, fuel: nat): (r: RunResult)
    requires Valid(s)
    ensures Valid(r.final)
    ensures r.final.code == s.code && r.final.size == s.size
    ensures r.outcome == Exited <==> !Running(r.final)
    ensures r.outcome.Faulted? ==> r.outcome.e != Ok
    ensures |r.trace| <= fuel
    decreases fuel
  {
    if !Running(s) then RunResult(Exited, s, [])
    else if fuel == 0 then RunResult(OutOfFuel, s, [])
    else if !Defined(s) then RunResult(Undefined, s, [])
    else
      var r := Step(s, fpu);
      if r.except != Ok then RunResult(Faulted(r.except), r.next, [])
      else
        var rest := Run(r.next, fpu, fuel - 1);
        rest.(trace := [OpAt(s)] + rest.trace)
  }

  /** The three ways a `tvm_run` loop turn can stop without stepping. */
  lemma RunStops(s: State, fpu: FloatUnit, fuel: nat)
    requires Valid(s)
    ensures !Running(s) ==> Run(s, fpu, fuel).outcome == Exited && Run(s, fpu, fuel).final == s
    ensures Running(s) && fuel == 0 ==> Run(s, fpu, fuel).outcome == OutOfFuel && Run(s, fpu, fuel).final == s
    ensures Running(s) && fuel > 0 && !Defined(s) ==> Run(s, fpu, fuel).outcome == Undefined && Run(s, fpu, fuel).final == s
  {
  }

  /** One turn of the `tvm_run` loop. */
  lemma RunOneStep(s: State, fpu: FloatUnit, fuel: nat)
    requires Valid(s) && Running(s) && Defined(s) && fuel > 0
    ensures var r := Step(s, fpu);
      r.except != Ok ==> Run(s, fpu, fuel) == RunResult(Faulted(r.except), r.next, [])
    ensures var r := Step(s, fpu);
      r.except == Ok ==> Run(s, fpu, fuel) == Run(r.next, fpu, fuel - 1).(trace := [OpAt(s)] + Run(r.next, fpu, fuel - 1).trace)
  {
  }

  function SumStackDelta(ops: seq<OpType>): int {
    if ops == [] then 0 else StackDelta(ops[0]) + SumStackDelta(ops[1..])
  }

  function SumReturnDelta(ops: seq<OpType>): int {
    if ops == [] then 0 else ReturnDelta(ops[0]) + SumReturnDelta(ops[1..])
  }

  function CountOp(ops: seq<OpType>, op: OpType): nat {
    if ops == [] then 0 else (if ops[0] == op then 1 else 0) + CountOp(ops[1..], op)
  }

  /** Stack discipline over a whole run: `sp` and `rsp` move by the sums of
      the static deltas of the opcodes executed (a fault changes neither). */
  lemma {:induction false} RunStackDiscipline(s: State, fpu: FloatUnit, fuel: nat)
    requires Valid(s)
    ensures var r := Run(s, fpu, fuel);
      r.final.sp == s.sp + SumStackDelta(r.trace) && r.final.rsp == s.rsp + SumReturnDelta(r.trace)
    decreases fuel
  {
    if Running(s) && fuel > 0 && Defined(s) {
      var r := Step(s, fpu);
      if r.except == Ok {
        RunStackDiscipline(r.next, fpu, fuel - 1);
        var rest := Run(r.next, fpu, fuel - 1).trace;
        assert ([OpAt(s)] + rest)[1..] == rest;
      }
    }
  }

  /** The return-stack depth a trace leaves is its CALLs minus its RETs. */
  lemma {:induction false} ReturnDeltaCountsCalls(ops: seq<OpType>)
    ensures SumReturnDelta(ops) == CountOp(ops, Call) - CountOp(ops, Ret)
  {
    if ops != [] {
      ReturnDeltaCountsCalls(ops[1..]);
    }
  }

  // ---- One-instruction facts ------------------------------------------------

  /** ADD/SUB/MULT, and DIV/MOD with a nonzero divisor: slot sp-2 becomes
      (second op top) in 32 bits, sp drops by one, ip advances, nothing else changes. */
  lemma IntArithStep(s: State, fpu: FloatUnit)
    requires Valid(s) && s.ip < PROGRAM_CAPACITY && OpAt(s).Binary? && OpAt(s).bop in {Add, Sub, Mult, Div, Mod}
    requires 2 <= s.sp < STACK_CAPACITY
    requires OpAt(s).bop in {Div, Mod} ==> s.stack[s.sp - 1].bits != 0
    ensures StepBinary(s, fpu) == Continue(s.(
      stack := s.stack[s.sp - 2 := s.stack[s.sp - 2].(bits :=
                 FromSigned(IntArith(OpAt(s).bop, s.stack[s.sp - 2].I32(), s.stack[s.sp - 1].I32())))],
      sp := s.sp - 1, ip := s.ip + 1))
  {
  }

  /** Underflow is checked before overflow and before the divisor; all three
      leave the machine as it was. */
  lemma BinaryFaults(s: State, fpu: FloatUnit)
    requires Valid(s) && s.ip < PROGRAM_CAPACITY && OpAt(s).Binary?
    ensures s.sp < 2 ==> StepBinary(s, fpu) == Raise(StackUnderflow, s)
    ensures 2 <= s.sp && s.sp >= STACK_CAPACITY ==> StepBinary(s, fpu) == Raise(StackOverflow, s)
    ensures 2 <= s.sp < STACK_CAPACITY && OpAt(s).bop in {Div, Mod} && s.stack[s.sp - 1].bits == 0 ==>
              StepBinary(s, fpu) == Raise(DivisionByZero, s)
  {
  }

  /** DUP pushes a copy of the top value's bits and leaves the slots below alone. */
  lemma DupStep(s: State)
    requires Valid(s) && s.ip < PROGRAM_CAPACITY && OpAt(s) == Dup && 1 <= s.sp < STACK_CAPACITY
    ensures StepDup(s).except == Ok
    ensures StepDup(s).next.sp == s.sp + 1
    ensures StepDup(s).next.stack[s.sp].bits == s.stack[s.sp - 1].bits
    ensures StepDup(s).next.stack[..s.sp] == s.stack[..s.sp]
  {
  }

  /** CLN n: depth is checked first; otherwise stack[sp-n-1] is copied to the top. */
  lemma ClnStep(s: State)
    requires Valid(s) && s.ip < PROGRAM_CAPACITY && OpAt(s) == Cln
    ensures s.code[s.ip].operand.bits >= s.sp ==> StepCln(s) == Raise(InvalidStackAccess, s)
    ensures s.code[s.ip].operand.bits < s.sp < STACK_CAPACITY ==>
      StepCln(s) == Continue(s.(stack := s.stack[s.sp := s.stack[s.sp - s.code[s.ip].operand.bits - 1]],
                                sp := s.sp + 1, ip := s.ip + 1))
  {
  }

  /** SWAP n with n < sp and sp >= 2 exchanges stack[sp-1] and stack[sp-n-1]. */
  lemma SwapStep(s: State)
    requires Valid(s) && s.ip < PROGRAM_CAPACITY && OpAt(s) == Swap
    requires s.code[s.ip].operand.bits < s.sp && s.sp >= 2
    ensures var n := s.code[s.ip].operand.bits;
      StepSwap(s) == Continue(s.(stack := Exchange(s.stack, s.sp - 1, s.sp - n - 1), ip := s.ip + 1))
  {
  }

  lemma ExchangeTwice<T>(q: seq<T>, i: nat, j: nat)
    requires i < |q| && j < |q|
    ensures Exchange(Exchange(q, i, j), i, j) == q
  {
    assert forall k | 0 <= k < |q| :: Exchange(Exchange(q, i, j), i, j)[k] == q[k];
  }

  /** Executing the same SWAP twice gives back the original stack. */
  lemma SwapTwiceRestoresStack(s: State)
    requires Valid(s) && s.ip < PROGRAM_CAPACITY && OpAt(s) == Swap
    requires s.code[s.ip].operand.bits < s.sp && s.sp >= 2
    ensures var t := StepSwap(s).next;
      var u := StepSwap(t.(ip := s.ip)).next;
      u.stack == s.stack && u.sp == s.sp && u.ip == s.ip + 1
  {
    var n := s.code[s.ip].operand.bits;
    SwapStep(s);
    var t := StepSwap(s).next;
    var t' := t.(ip := s.ip);
    assert t.stack == Exchange(s.stack, s.sp - 1, s.sp - n - 1);
    SwapStep(t');
    assert StepSwap(t').next.stack == Exchange(t.stack, s.sp - 1, s.sp - n - 1);
    ExchangeTwice(s.stack, s.sp - 1, s.sp - n - 1);
  }

  /** JMP jumps to any target below size and faults on any other. */
  lemma JmpStep(s: State)
    requires Valid(s) && s.ip < PROGRAM_CAPACITY && OpAt(s) == Jmp
    ensures s.code[s.ip].operand.bits >= s.size ==> StepJmp(s) == Raise(InvalidInstructionAccess, s)
    ensures s.code[s.ip].operand.bits < s.size ==> StepJmp(s) == Continue(s.(ip := s.code[s.ip].operand.bits))
  {
  }

  /** JZ and JNZ: an empty stack underflows before the target is checked;
      otherwise JZ jumps iff the top `ui32` is 0 and JNZ iff it is not, and
      the stack is never touched. */
  lemma CondJumpStep(s: State)
    requires Valid(s) && s.ip < PROGRAM_CAPACITY && (OpAt(s) == Jz || OpAt(s) == Jnz)
    ensures s.sp == 0 ==> StepCondJump(s) == Raise(StackUnderflow, s)
    ensures s.sp >= 1 && s.code[s.ip].operand.bits >= s.size ==>
              StepCondJump(s) == Raise(InvalidInstructionAccess, s)
    ensures s.sp >= 1 && s.code[s.ip].operand.bits < s.size ==>
              var taken := (s.stack[s.sp - 1].bits == 0) == (OpAt(s) == Jz);
              StepCondJump(s) == Continue(s.(ip := if taken then s.code[s.ip].operand.bits else s.ip + 1))
  {
  }

  /** CALL faults leave the return stack alone (overflow is checked first). */
  lemma CallFaults(s: State)
    requires Valid(s) && s.ip < PROGRAM_CAPACITY && OpAt(s) == Call
    ensures s.rsp >= RETURN_STACK_CAPACITY ==> StepCall(s) == Raise(StackOverflow, s)
    ensures s.rsp < RETURN_STACK_CAPACITY && s.code[s.ip].operand.bits >= s.size ==>
              StepCall(s) == Raise(InvalidInstructionAccess, s)
  {
  }

  /** CALL pushes ip+1 and jumps; a RET executed next resumes at the
      instruction after the call with the return stack depth restored. */
  lemma CallThenRet(s: State)
    requires Valid(s) && s.ip < PROGRAM_CAPACITY && OpAt(s) == Call
    requires s.rsp < RETURN_STACK_CAPACITY && s.code[s.ip].operand.bits < s.size
    ensures var t := StepCall(s);
      t.except == Ok && t.next.ip == s.code[s.ip].operand.bits && t.next.rsp == s.rsp + 1 &&
      (OpAt(t.next) == Ret ==>
        var u := StepRet(t.next);
        u.except == Ok && u.next.ip == s.ip + 1 && u.next.rsp == s.rsp && u.next.stack == s.stack)
  {
  }

  /** RET with an empty return stack underflows. */
  lemma RetUnderflow(s: State)
    requires Valid(s) && s.ip < PROGRAM_CAPACITY && OpAt(s) == Ret && s.rsp == 0
    ensures StepRet(s) == Raise(StackUnderflow, s)
  {
  }

  /** Integer comparisons push 1 iff (top op second), else 0, and keep both operands. */
  lemma CompareStep(s: State, fpu: FloatUnit)
    requires Valid(s) && s.ip < PROGRAM_CAPACITY && OpAt(s).Compare? && OpAt(s).cop in {Gt, Lt, Eq, Ge, Le}
    requires 2 <= s.sp < STACK_CAPACITY
    ensures var t := StepCompare(s, fpu).next;
      StepCompare(s, fpu).except == Ok && t.sp == s.sp + 1 && t.stack[..s.sp] == s.stack[..s.sp] &&
      (t.stack[s.sp].bits == 1 <==> IntCompare(OpAt(s).cop, s.stack[s.sp - 1].I32(), s.stack[s.sp - 2].I32())) &&
      (t.stack[s.sp].bits == 0 <==> !IntCompare(OpAt(s).cop, s.stack[s.sp - 1].I32(), s.stack[s.sp - 2].I32()))
  {
  }

  /** HALT sets the flag and advances ip. */
  lemma HaltStep(s: State, fpu: FloatUnit)
    requires Valid(s) && Defined(s) && OpAt(s) == Halt
    ensures Step(s, fpu) == Continue(s.(halted := true, ip := s.ip + 1))
  {
  }

  /** PUSH stores the operand, tag included, at slot sp. */
  lemma PushStep(s: State, fpu: FloatUnit)
    requires Valid(s) && Defined(s) && OpAt(s) == Push
    ensures Step(s, fpu) == Continue(s.(stack := s.stack[s.sp := s.code[s.ip].operand], sp := s.sp + 1, ip := s.ip + 1))
  {
  }

  // ---- Whole runs -------------------------------------------------------------

  /** The state `tvm_init` returns. */
  function InitialState(): (s: State)
    ensures Valid(s) && s.sp == 0 && s.rsp == 0 && s.ip == 0 && !s.halted && s.size == 0
  {
    State(seq(STACK_CAPACITY, _ => ZERO_OBJECT), 0,
          seq(RETURN_STACK_CAPACITY, _ => 0), 0,
          seq(PROGRAM_CAPACITY, _ => ZERO_OPCODE), 0,
          0, false)
  }

  /** `tvm_load_program_from_memory`: copy the opcodes in, set size. */
  function LoadProgram(s: State, program: seq<Opcode>): (t: State)
    requires Valid(s) && |program| <= PROGRAM_CAPACITY
    ensures Valid(t) && t.size == |program| && t.code[..|program|] == program
    ensures t.code[|program|..] == s.code[|program|..]
    ensures t.stack == s.stack && t.sp == s.sp && t.returnStack == s.returnStack && t.rsp == s.rsp
    ensures t.ip == s.ip && t.halted == s.halted
  {
    s.(code := program + s.code[|program|..], size := |program|)
  }

  /** A run reaching ip == size (the loop allows it) executes the zeroed
      slot code[size], an OP_NOP, and then leaves the loop without halting. */
  lemma RunPastEnd(s: State, fpu: FloatUnit, fuel: nat)
    requires Valid(s) && !s.halted && s.ip == s.size < PROGRAM_CAPACITY
    requires s.code[s.size] == ZERO_OPCODE && fuel >= 1
    ensures Run(s, fpu, fuel) == RunResult(Exited, s.(ip := s.size + 1), [Nop])
  {
    var t := s.(ip := s.size + 1);
    assert Step(s, fpu) == Continue(t);
    assert !Running(t);
  }

  function PushOp(v: u32): Opcode { Opcode(Push, Object(Number, v)) }
  function BareOp(op: OpType): Opcode { Opcode(op, ZERO_OBJECT) }

  /** A machine ready to start: empty stacks, ip 0, not halted
      (`tvm_init` leaves one, see `InitialState`). */
  predicate Ready(s: State) {
    Valid(s) && s.sp == 0 && s.rsp == 0 && s.ip == 0 && !s.halted
  }

  /** A PUSH inside the program is one successful turn of the run loop. */
  lemma RunPush(s: State, fpu: FloatUnit, fuel: nat)
    requires Valid(s) && Running(s) && s.ip < s.size && s.sp < STACK_CAPACITY && fuel >= 1
    requires s.code[s.ip].op == Push
    ensures var t := s.(stack := s.stack[s.sp := s.code[s.ip].operand], sp := s.sp + 1, ip := s.ip + 1);
      Run(s, fpu, fuel) == Run(t, fpu, fuel - 1).(trace := [Push] + Run(t, fpu, fuel - 1).trace)
  {
    PushStep(s, fpu);
    RunOneStep(s, fpu, fuel);
  }

  /** Two PUSHes at the start of a program fill slots 0 and 1. */
  lemma TwoPushes(s: State, fpu: FloatUnit, fuel: nat)
    requires Valid(s) && !s.halted && s.ip == 0 && s.sp == 0 && s.size >= 2 && fuel >= 2
    requires s.code[0].op == Push && s.code[1].op == Push
    ensures var s2 := s.(stack := s.stack[0 := s.code[0].operand][1 := s.code[1].operand], sp := 2, ip := 2);
      Run(s, fpu, fuel).outcome == Run(s2, fpu, fuel - 1 - 1).outcome &&
      Run(s, fpu, fuel).final == Run(s2, fpu, fuel - 1 - 1).final &&
      Run(s, fpu, fuel).trace == [Push, Push] + Run(s2, fpu, fuel - 1 - 1).trace
  {
    RunPush(s, fpu, fuel);
    var s1 := s.(stack := s.stack[0 := s.code[0].operand], sp := 1, ip := 1);
    RunPush(s1, fpu, fuel - 1);
  }

  const ADD_PROGRAM: seq<Opcode> := [PushOp(3), PushOp(5), BareOp(Binary(Add)), BareOp(Halt)]
  const DIV_BY_ZERO_PROGRAM: seq<Opcode> := [PushOp(5), PushOp(0), BareOp(Binary(Div)), BareOp(Halt)]

  lemma LoadedProgram(s: State, program: seq<Opcode>)
    requires Ready(s) && program in {ADD_PROGRAM, DIV_BY_ZERO_PROGRAM}
    ensures var t := LoadProgram(s, program);
      Ready(t) && t.size == 4 && t.code[0] == program[0] && t.code[1] == program[1] &&
      t.code[2] == program[2] && t.code[3] == program[3]
  {
    var t := LoadProgram(s, program);
    assert t.code[..4] == program;
    assert t.code[0] == t.code[..4][0] && t.code[1] == t.code[..4][1];
    assert t.code[2] == t.code[..4][2] && t.code[3] == t.code[..4][3];
  }

  /** ADD then HALT with 3 and 5 in slots 0 and 1. */
  lemma AddThenHalt(s: State, fpu: FloatUnit)
    requires Valid(s) && !s.halted && s.size == 4 && s.ip == 2 && s.sp == 2
    requires s.code[2] == BareOp(Binary(Add)) && s.code[3] == BareOp(Halt)
    requires s.stack[0].bits == 3 && s.stack[1].bits == 5
    ensures var r := Run(s, fpu, 2);
      r.outcome == Exited && r.final.halted && r.final.sp == 1 && r.final.stack[0].I32() == 8 &&
      r.trace == [Binary(Add), Halt]
  {
    IntArithStep(s, fpu);
    var s3 := s.(stack := s.stack[0 := s.stack[0].(bits := FromSigned(3 + 5))], sp := 1, ip := 3);
    HaltStep(s3, fpu);
    var s4 := s3.(halted := true, ip := 4);
    assert Run(s4, fpu, 0) == RunResult(Exited, s4, []);
    assert Run(s3, fpu, 1) == RunResult(Exited, s4, [Halt]);
  }

  /** [PUSH 3, PUSH 5, ADD, HALT] halts after four steps with one value, 8, on the stack. */
  lemma AddProgramHalts(s: State, fpu: FloatUnit)
    requires Ready(s)
    ensures var r := Run(LoadProgram(s, ADD_PROGRAM), fpu, 4);
      r.outcome == Exited && r.final.halted && r.final.sp == 1 && r.final.stack[0].I32() == 8 &&
      r.trace == [Push, Push, Binary(Add), Halt]
  {
    var s0 := LoadProgram(s, ADD_PROGRAM);
    LoadedProgram(s, ADD_PROGRAM);
    TwoPushes(s0, fpu, 4);
    var s2 := s0.(stack := s0.stack[0 := s0.code[0].operand][1 := s0.code[1].operand], sp := 2, ip := 2);
    AddThenHalt(s2, fpu);
  }

  /** [PUSH 5, PUSH 0, DIV, HALT] faults with DIVISION_BY_ZERO at the DIV and never halts. */
  lemma DivByZeroProgramFaults(s: State, fpu: FloatUnit)
    requires Ready(s)
    ensures var r := Run(LoadProgram(s, DIV_BY_ZERO_PROGRAM), fpu, 4);
      r.outcome == Faulted(DivisionByZero) && !r.final.halted && r.final.ip == 2 && r.final.sp == 2
  {
    var s0 := LoadProgram(s, DIV_BY_ZERO_PROGRAM);
    LoadedProgram(s, DIV_BY_ZERO_PROGRAM);
    TwoPushes(s0, fpu, 4);
    var s2 := s0.(stack := s0.stack[0 := s0.code[0].operand][1 := s0.code[1].operand], sp := 2, ip := 2);
    BinaryFaults(s2, fpu);
    RunOneStep(s2, fpu, 2);
  }

  /** A CALL whose target is at or past the program length faults with
      INVALID_INSTRUCTION_ACCESS and leaves the return stack as it was. */
  lemma CallOutOfRangeFaults(s: State, fpu: FloatUnit, target: u32)
    requires Ready(s) && target >= 2
    ensures var t := LoadProgram(s, [Opcode(Call, Object(Address, target)), BareOp(Halt)]);
      var r := Run(t, fpu, 2);
      r.outcome == Faulted(InvalidInstructionAccess) && r.final == t
  {
    var t := LoadProgram(s, [Opcode(Call, Object(Address, target)), BareOp(Halt)]);
    assert t.code[0] == t.code[..2][0];
    CallFaults(t);
  }

  // ---- The machine as the C code holds it ------------------------------------

  class Machine {
    var stack: array<Object>
    var sp: nat
    var returnStack: array<u32>
    var rsp: nat
    var code: array<Opcode>
    var size: nat
    var ip: u32
    var halted: bool

    ghost predicate Inv()
      reads this
    {
      stack.Length == STACK_CAPACITY && returnStack.Length == RETURN_STACK_CAPACITY &&
      code.Length == PROGRAM_CAPACITY && sp <= STACK_CAPACITY && rsp <= RETURN_STACK_CAPACITY &&
      size <= PROGRAM_CAPACITY
    }

    function Snapshot(): (s: State)
      reads this, stack, returnStack, code
      ensures Inv() ==> Valid(s)
    {
      State(stack[..], sp, returnStack[..], rsp, code[..], size, ip, halted)
    }

    /** `tvm_init`. */
    constructor Init()
      ensures Inv() && Snapshot() == InitialState()
      ensures fresh(stack) && fresh(returnStack) && fresh(code)
    {
      stack := new Object[STACK_CAPACITY](_ => ZERO_OBJECT);
      returnStack := new u32[RETURN_STACK_CAPACITY](_ => 0);
      code := new Opcode[PROGRAM_CAPACITY](_ => ZERO_OPCODE);
      sp, rsp, size, ip, halted := 0, 0, 0, 0, false;
      new;
      assert stack[..] == InitialState().stack;
      assert returnStack[..] == InitialState().returnStack;
      assert code[..] == InitialState().code;
    }

    /** `tvm_load_program_from_memory`: the memcpy is a copying loop. */
    method LoadProgramFromMemory(program: seq<Opcode>)
      requires Inv() && |program| <= PROGRAM_CAPACITY
      modifies this, code
      ensures Inv() && stack == old(stack) && returnStack == old(returnStack) && code == old(code)
      ensures Snapshot() == LoadProgram(old(Snapshot()), program)
    {
      size := |program|;
      var i := 0;
      while i < |program|
        invariant 0 <= i <= |program| && Inv() && size == |program|
        invariant stack == old(stack) && returnStack == old(returnStack) && code == old(code)
        invariant sp == old(sp) && rsp == old(rsp) && ip == old(ip) && halted == old(halted)
        invariant code[..i] == program[..i]
        invariant code[i..] == old(code[..])[i..]
      {
        code[i] := program[i];
        i := i + 1;
      }
      assert code[..] == code[..|program|] + code[|program|..];
    }

    method ExecBinary(fpu: FloatUnit) returns (e: Exception)
      requires Inv() && ip < PROGRAM_CAPACITY && code[ip].op.Binary?
      modifies this, stack
      ensures Inv() && stack == old(stack) && returnStack == old(returnStack) && code == old(code)
      ensures StepResult(e, Snapshot()) == StepBinary(old(Snapshot()), fpu)
    {
      ghost var s := Snapshot();
      var op := code[ip].op.bop;
      if sp < 2 {
        return StackUnderflow;
      } else if sp >= STACK_CAPACITY {
        return StackOverflow;
      }
      if (op == Div || op == Mod) && stack[sp - 1].bits == 0 {
        return DivisionByZero;
      }
      var second, top := stack[sp - 2], stack[sp - 1];
      var v := BinaryValue(op, fpu, second, top);
      assert StepBinary(s, fpu) == Continue(s.(stack := s.stack[sp - 2 := SetBits(second, v)], sp := sp - 1, ip := ip + 1));
      stack[sp - 2] := SetBits(second, v);
      sp := sp - 1;
      ip := ip + 1;
      return Ok;
    }

    method ExecDup() returns (e: Exception)
      requires Inv() && ip < PROGRAM_CAPACITY && code[ip].op == Dup
      modifies this, stack
      ensures Inv() && stack == old(stack) && returnStack == old(returnStack) && code == old(code)
      ensures StepResult(e, Snapshot()) == StepDup(old(Snapshot()))
    {
      if sp < 1 {
        return StackUnderflow;
      } else if sp >= STACK_CAPACITY {
        return StackOverflow;
      }
      stack[sp] := SetBits(stack[sp], stack[sp - 1].bits);
      sp := sp + 1;
      ip := ip + 1;
      return Ok;
    }

    method ExecCln() returns (e: Exception)
      requires Inv() && ip < PROGRAM_CAPACITY && code[ip].op == Cln
      modifies this, stack
      ensures Inv() && stack == old(stack) && returnStack == old(returnStack) && code == old(code)
      ensures StepResult(e, Snapshot()) == StepCln(old(Snapshot()))
    {
      var n := code[ip].operand.bits;
      if n >= sp {
        return InvalidStackAccess;
      } else if sp < 1 {
        return StackUnderflow;
      } else if sp >= STACK_CAPACITY {
        return StackOverflow;
      }
      stack[sp] := stack[sp - n - 1];
      sp := sp + 1;
      ip := ip + 1;
      return Ok;
    }

    method ExecSwap() returns (e: Exception)
      requires Inv() && ip < PROGRAM_CAPACITY && code[ip].op == Swap
      modifies this, stack
      ensures Inv() && stack == old(stack) && returnStack == old(returnStack) && code == old(code)
      ensures StepResult(e, Snapshot()) == StepSwap(old(Snapshot()))
    {
      var n := code[ip].operand.bits;
      if n >= sp {
        return InvalidStackAccess;
      } else if sp < 2 {
        return StackUnderflow;
      }
      var temp := stack[sp - 1];
      stack[sp - 1] := stack[sp - n - 1];
      stack[sp - n - 1] := temp;
      ip := ip + 1;
      return Ok;
    }

    method ExecUnary(fpu: FloatUnit) returns (e: Exception)
      requires Inv() && ip < PROGRAM_CAPACITY && code[ip].op.Unary?
      modifies this, stack
      ensures Inv() && stack == old(stack) && returnStack == old(returnStack) && code == old(code)
      ensures StepResult(e, Snapshot()) == StepUnary(old(Snapshot()), fpu)
    {
      var op := code[ip].op.uop;
      if sp < 1 {
        return StackUnderflow;
      }
      var top := stack[sp - 1];
      stack[sp - 1] := SetBits(top, UnaryValue(op, fpu, top));
      ip := ip + 1;
      return Ok;
    }

    method ExecJmp() returns (e: Exception)
      requires Inv() && ip < PROGRAM_CAPACITY && code[ip].op == Jmp
      modifies this
      ensures Inv() && stack == old(stack) && returnStack == old(returnStack) && code == old(code)
      ensures StepResult(e, Snapshot()) == StepJmp(old(Snapshot()))
    {
      var target := code[ip].operand.bits;
      if target >= size {
        return InvalidInstructionAccess;
      }
      ip := target;
      return Ok;
    }

    method ExecCondJump() returns (e: Exception)
      requires Inv() && ip < PROGRAM_CAPACITY && (code[ip].op == Jz || code[ip].op == Jnz)
      modifies this
      ensures Inv() && stack == old(stack) && returnStack == old(returnStack) && code == old(code)
      ensures StepResult(e, Snapshot()) == StepCondJump(old(Snapshot()))
    {
      var inst := code[ip];
      var target := inst.operand.bits;
      if sp < 1 {
        return StackUnderflow;
      } else if target >= size {
        return InvalidInstructionAccess;
      }
      if inst.op == Jz {
        if stack[sp - 1].bits == 0 {
          ip := target;
        } else {
          ip := ip + 1;
        }
      } else {
        if stack[sp - 1].bits != 0 {
          ip := target;
        } else {
          ip := ip + 1;
        }
      }
      return Ok;
    }

    method ExecCall() returns (e: Exception)
      requires Inv() && ip < PROGRAM_CAPACITY && code[ip].op == Call
      modifies this, returnStack
      ensures Inv() && stack == old(stack) && returnStack == old(returnStack) && code == old(code)
      ensures StepResult(e, Snapshot()) == StepCall(old(Snapshot()))
    {
      var target := code[ip].operand.bits;
      if rsp >= RETURN_STACK_CAPACITY {
        return StackOverflow;
      } else if target >= size {
        return InvalidInstructionAccess;
      }
      returnStack[rsp] := ip + 1;
      rsp := rsp + 1;
      ip := target;
      return Ok;
    }

    method ExecRet() returns (e: Exception)
      requires Inv() && ip < PROGRAM_CAPACITY && code[ip].op == Ret
      modifies this
      ensures Inv() && stack == old(stack) && returnStack == old(returnStack) && code == old(code)
      ensures StepResult(e, Snapshot()) == StepRet(old(Snapshot()))
    {
      if rsp < 1 {
        return StackUnderflow;
      }
      rsp := rsp - 1;
      ip := returnStack[rsp];
      return Ok;
    }

    method ExecCompare(fpu: FloatUnit) returns (e: Exception)
      requires Inv() && ip < PROGRAM_CAPACITY && code[ip].op.Compare?
      modifies this, stack
      ensures Inv() && stack == old(stack) && returnStack == old(returnStack) && code == old(code)
      ensures StepResult(e, Snapshot()) == StepCompare(old(Snapshot()), fpu)
    {
      var op := code[ip].op.cop;
      if sp < 2 {
        return StackUnderflow;
      } else if sp >= STACK_CAPACITY {
        return StackOverflow;
      }
      var top, second := stack[sp - 1], stack[sp - 2];
      stack[sp] := SetBits(stack[sp], CompareValue(op, fpu, top, second));
      sp := sp + 1;
      ip := ip + 1;
      return Ok;
    }

    /** `tvm_exec_opcode` (the stack dump it prints first is output only). */
    method ExecOpcode(fpu: FloatUnit) returns (e: Exception)
      requires Inv() && Defined(Snapshot())
      modifies this, stack, returnStack
      ensures Inv() && stack == old(stack) && returnStack == old(returnStack) && code == old(code)
      ensures StepResult(e, Snapshot()) == Step(old(Snapshot()), fpu)
    {
      var inst := code[ip];
      match inst.op
      case Nop =>
        ip := ip + 1;
        e := Ok;
      case Push =>
        stack[sp] := inst.operand;
        sp := sp + 1;
        ip := ip + 1;
        e := Ok;
      case Binary(_) =>
        e := ExecBinary(fpu);
      case Dup =>
        e := ExecDup();
      case Cln =>
        e := ExecCln();
      case Swap =>
        e := ExecSwap();
      case Unary(_) =>
        e := ExecUnary(fpu);
      case Jmp =>
        e := ExecJmp();
      case Jz =>
        e := ExecCondJump();
      case Jnz =>
        e := ExecCondJump();
      case Call =>
        e := ExecCall();
      case Ret =>
        e := ExecRet();
      case Compare(_) =>
        e := ExecCompare(fpu);
      case Halt =>
        halted := true;
        ip := ip + 1;
        e := Ok;
      case Unknown(_) =>
        e := InvalidInstruction;
    }

    /** One turn of the `tvm_run` loop body, from a state where the loop
        condition holds: either the run stops here with `outcome`, or one
        opcode was executed and the run goes on with one less unit of fuel. */
    method Turn(fpu: FloatUnit, fuel: nat) returns (stop: bool, outcome: RunOutcome, rest: nat)
      requires Inv() && Running(Snapshot())
      modifies this, stack, returnStack
      ensures Inv() && stack == old(stack) && returnStack == old(returnStack) && code == old(code)
      ensures stop ==> outcome == Run(old(Snapshot()), fpu, fuel).outcome &&
                       Snapshot() == Run(old(Snapshot()), fpu, fuel).final
      ensures !stop ==> rest < fuel &&
                        Run(Snapshot(), fpu, rest).outcome == Run(old(Snapshot()), fpu, fuel).outcome &&
                        Run(Snapshot(), fpu, rest).final == Run(old(Snapshot()), fpu, fuel).final
    {
      ghost var before := Snapshot();
      RunStops(before, fpu, fuel);
      if fuel == 0 {
        return true, OutOfFuel, 0;
      }
      if !(ip < PROGRAM_CAPACITY && (code[ip].op == Push ==> sp < STACK_CAPACITY)) {
        return true, Undefined, fuel;
      }
      rest := fuel - 1;
      RunOneStep(before, fpu, fuel);
      var e := ExecOpcode(fpu);
      if e != Ok {
        return true, Faulted(e), rest;
      }
      return false, Exited, rest;
    }

    /** `tvm_run`, for at most `fuel` steps. A fault ends the run (the C code
        prints the exception name and exits); so does a step whose C behaviour
        would be undefined. */
    method RunLoop(fpu: FloatUnit, fuel: nat) returns (outcome: RunOutcome)
      requires Inv()
      modifies this, stack, returnStack
      ensures Inv() && stack == old(stack) && returnStack == old(returnStack) && code == old(code)
      ensures outcome == Run(old(Snapshot()), fpu, fuel).outcome
      ensures Snapshot() == Run(old(Snapshot()), fpu, fuel).final
    {
      ghost var goal := Run(Snapshot(), fpu, fuel);
      var f := fuel;
      while !halted && ip as int <= size
        invariant Inv() && stack == old(stack) && returnStack == old(returnStack) && code == old(code)
        invariant Run(Snapshot(), fpu, f).outcome == goal.outcome
        invariant Run(Snapshot(), fpu, f).final == goal.final
        decreases f
      {
        var stop;
        stop, outcome, f := Turn(fpu, f);
        if stop {
          return;
        }
      }
      RunStops(Snapshot(), fpu, f);
      return Exited;
    }
  }
}
