/** The syntax tree of include/tasm/tasm_ast.h.

    `tasm_ast_t` is a tagged union; here each tag is a constructor carrying its
    payload. The instruction tags AST_OP_NOP … AST_OP_HALT are `Inst` nodes:
    those the virtual machine also has carry the matching `Tvm.OpType`, the
    others (POP, the logic, memory, heap and I/O operations) are
    `OtherOp`. Pointers that may be NULL are `Option`s. */
module TasmAst {
  import opened Wrappers
  import opened Words
  import Tvm

  /** An opcode of the virtual machine, as an AST tag names it. */
  type VmOp = op: Tvm.OpType | !op.Unknown? witness Tvm.Nop

  /** AST_OP_POP and AST_OP_AND … AST_OP_NATIVE: tags without a VM opcode here. */
  datatype OtherOp =
    | Pop | And | Or | Not | BAnd | BOr | BNot | LShft | RShft
    | LoadC | ALoadC | Load | Store | GLoad | GStore
    | HAlloc | Deref | DerefB | HSet | HSetOf | Puts | PutC | Native

  datatype InstTag = Vm(op: VmOp) | Other(other: OtherOp)

  /** `tasm_ast_t`. */
  datatype Node =
    | NoneNode
    | File(lines: seq<Node>)
    | CFunction(retType: nat, argTypes: seq<nat>, cname: string)
    | CStruct(sname: string)
    | Data(value: Option<Node>)
    | Inst(tag: InstTag, name: string, operand: Option<Node>)
    | Str(text: string)
    | Number(textValue: string, bits: u32)
    | Char(charValue: string)
    | LabelDecl(declName: string)
    | LabelCall(callName: string)
    | Proc(procName: string, procLines: seq<Node>)

  /** The tags both resolve passes count: AST_OP_NOP … AST_OP_CU2F and
      AST_OP_HALT, without AST_OP_POP and without the comparisons. */
  predicate Counted(n: Node) {
    n.Inst? && n.tag.Vm? && !n.tag.op.Compare?
  }

  /** The instructions whose translation reads `inst.operand` (a NULL one there
      is a null-pointer dereference). */
  predicate NeedsOperand(op: VmOp) {
    op in {Tvm.Push, Tvm.Cln, Tvm.Swap, Tvm.Jmp, Tvm.Jz, Tvm.Jnz, Tvm.Call}
  }

  /** Every instruction that the translator reads an operand of has one. */
  predicate OperandsPresent(n: Node)
    decreases n, 1
  {
    match n
    case File(lines) => LinesOperandsPresent(lines)
    case Proc(_, lines) => LinesOperandsPresent(lines)
    case Inst(tag, _, operand) => tag.Vm? && NeedsOperand(tag.op) ==> operand.Some?
    case _ => true
  }

  predicate LinesOperandsPresent(lines: seq<Node>)
    decreases lines, 0
  {
    forall i | 0 <= i < |lines| :: OperandsPresent(lines[i])
  }
}
