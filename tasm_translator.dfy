/** The translator of include/tasm/tasm_translator.h.

    Three walks over the syntax tree share one symbol table:
    tasm_resolve_labels records every label declaration with the number of
    instructions before it, tasm_resolve_procs does the same for procedures,
    and tasm_translate_unit emits one opcode per instruction, recording each
    resolved reference in `label_calls`.

    The functions below are the meaning of each walk on a snapshot of the
    tables; the class `Translator` keeps the fixed-size C arrays and its methods
    are proved to compute those functions. The jump case of code generation is
    modelled as corrected (see `JumpStep` and `JumpStepAsWritten`). */
module TasmTranslator {
  import opened Wrappers
  import opened Words
  import Ast = TasmAst
  import P = TasmParser
  import Tvm

  const MAX_PROGRAM_CAPACITY: nat := 1024
  const SYMBOL_LABEL_CALL_CAPACITY: nat := 512
  const SYMBOL_LABEL_DECL_CAPACITY: nat := 512
  const SYMBOL_PROC_DECL_CAPACITY: nat := 512

  /** An entry of `label_decls`, `label_calls` or `proc_decls`. */
  datatype Symbol = Symbol(name: string, addr: nat)

  // ---------------------------------------------------------------------------
  // Lookups

  /** get_addr_from_*_symbol: the address of the first entry with the name,
      or -1 (the `(size_t)-1` the callers read back into an `int`). */
  function Find(t: seq<Symbol>, name: string): (a: int)
    ensures a == -1 <==> forall i | 0 <= i < |t| :: t[i].name != name
    ensures a >= -1
    ensures a >= 0 ==> Symbol(name, a) in t
  {
    if t == [] then -1
    else if t[0].name == name then t[0].addr
    else Find(t[1..], name)
  }

  /** The address found is that of the first entry with the name. */
  lemma {:induction false} FindFirst(t: seq<Symbol>, name: string, i: nat)
    requires i < |t| && t[i].name == name
    requires forall j | 0 <= j < i :: t[j].name != name
    ensures Find(t, name) == t[i].addr
  {
    if i > 0 {
      FindFirst(t[1..], name, i - 1);
    }
  }

  /** Entries appended after a match do not change what is found. */
  lemma {:induction false} FindAppend(t: seq<Symbol>, u: seq<Symbol>, name: string)
    requires Find(t, name) != -1
    ensures Find(t + u, name) == Find(t, name)
  {
    if t[0].name != name {
      assert (t + u)[1..] == t[1..] + u;
      FindAppend(t[1..], u, name);
    }
  }

  /** No two entries share a name. */
  predicate Unique(t: seq<Symbol>) {
    forall i, j | 0 <= i < j < |t| :: t[i].name != t[j].name
  }

  function Names(t: seq<Symbol>): set<string> {
    set i | 0 <= i < |t| :: t[i].name
  }

  /** In a table without repeated names, an entry is what a lookup finds. */
  lemma FindInUnique(t: seq<Symbol>, s: Symbol)
    requires Unique(t) && s in t
    ensures Find(t, s.name) == s.addr
  {
    var i :| 0 <= i < |t| && t[i] == s;
    FindFirst(t, s.name, i);
  }

  // ---------------------------------------------------------------------------
  // Counting

  /** 1 for true, 0 for false. */
  function Indicator(b: bool): nat { if b then 1 else 0 }

  /** The number of nodes satisfying `p` in `n` and, for a file or a
      procedure, in its lines. */
  function Count(n: Ast.Node, p: Ast.Node -> bool): nat
    decreases n, 1
  {
    (if p(n) then 1 else 0)
    + match n
      case File(lines) => CountLines(lines, p)
      case Proc(_, lines) => CountLines(lines, p)
      case _ => 0
  }

  function CountLines(lines: seq<Ast.Node>, p: Ast.Node -> bool): nat
    decreases lines, 0
  {
    if lines == [] then 0
    else CountLines(lines[..|lines| - 1], p) + Count(lines[|lines| - 1], p)
  }

  lemma {:induction false} CountLinesStep(lines: seq<Ast.Node>, i: nat, p: Ast.Node -> bool)
    requires i < |lines|
    ensures CountLines(lines[..i + 1], p) == CountLines(lines[..i], p) + Count(lines[i], p)
  {
    assert lines[..i + 1][..i] == lines[..i];
  }

  lemma {:induction false} CountLinesPrefix(lines: seq<Ast.Node>, i: nat, p: Ast.Node -> bool)
    requires i <= |lines|
    ensures CountLines(lines[..i], p) <= CountLines(lines, p)
    decreases |lines| - i
  {
    if i < |lines| {
      CountLinesStep(lines, i, p);
      CountLinesPrefix(lines, i + 1, p);
    } else {
      assert lines[..i] == lines;
    }
  }

  predicate IsLabelDecl(n: Ast.Node) { n.LabelDecl? }
  predicate IsProc(n: Ast.Node) { n.Proc? }

  /** The nodes whose translation may append to `label_calls`. */
  predicate RefersToSymbol(n: Ast.Node) {
    || n.LabelCall?
    || (&& n.Inst? && n.tag.Vm? && n.operand.Some? && n.operand.value.LabelCall?
        && n.tag.op in {Tvm.Jmp, Tvm.Jz, Tvm.Jnz, Tvm.Call})
  }

  /** The line after a prefix fits in what the whole of the lines counts. */
  lemma RoomForNext(lines: seq<Ast.Node>, i: nat, p: Ast.Node -> bool)
    requires i < |lines|
    ensures CountLines(lines[..i], p) + Count(lines[i], p) <= CountLines(lines, p)
    ensures Indicator(p(lines[i])) <= Count(lines[i], p)
  {
    CountLinesStep(lines, i, p);
    CountLinesPrefix(lines, i + 1, p);
  }

  // ---------------------------------------------------------------------------
  // The two resolve passes

  /** A pass either walks the whole tree, leaving a table and the address
      counter, or stops at a duplicate name (`exit(1)`). */
  datatype Pass = Passed(table: seq<Symbol>, ptr: nat) | Duplicate(name: string)

  /** A label's name in `label_decls`: `proc$label` inside a procedure, the
      bare name at the top level. */
  function Qualify(prefix: Option<string>, name: string): string {
    if prefix.Some? then prefix.value + "$" + name else name
  }

  /** `tasm_resolve_labels`. */
  function LabelsNode(n: Ast.Node, prefix: Option<string>, t: seq<Symbol>, ptr: nat): (r: Pass)
    ensures r.Passed? ==> t <= r.table && ptr <= r.ptr
    decreases n, 1
  {
    match n
    case File(lines) => LabelsLines(lines, None, t, ptr)
    case Proc(name, lines) => LabelsLines(lines, Some(name), t, ptr)
    case LabelDecl(l) =>
      var q := Qualify(prefix, l);
      if Find(t, q) != -1 then Duplicate(q) else Passed(t + [Symbol(q, ptr)], ptr)
    case _ => Passed(t, if Ast.Counted(n) then ptr + 1 else ptr)
  }

  function LabelsLines(lines: seq<Ast.Node>, prefix: Option<string>, t: seq<Symbol>, ptr: nat): (r: Pass)
    ensures r.Passed? ==> t <= r.table && ptr <= r.ptr
    decreases lines, 0
  {
    if lines == [] then Passed(t, ptr)
    else
      match LabelsLines(lines[..|lines| - 1], prefix, t, ptr)
      case Duplicate(q) => Duplicate(q)
      case Passed(t1, p1) => LabelsNode(lines[|lines| - 1], prefix, t1, p1)
  }

  /** `tasm_resolve_procs`. */
  function ProcsNode(n: Ast.Node, t: seq<Symbol>, ptr: nat): (r: Pass)
    ensures r.Passed? ==> t <= r.table && ptr <= r.ptr
    decreases n, 1
  {
    match n
    case File(lines) => ProcsLines(lines, t, ptr)
    case Proc(name, lines) =>
      if Find(t, name) != -1 then Duplicate(name)
      else ProcsLines(lines, t + [Symbol(name, ptr)], ptr)
    case _ => Passed(t, if Ast.Counted(n) then ptr + 1 else ptr)
  }

  function ProcsLines(lines: seq<Ast.Node>, t: seq<Symbol>, ptr: nat): (r: Pass)
    ensures r.Passed? ==> t <= r.table && ptr <= r.ptr
    decreases lines, 0
  {
    if lines == [] then Passed(t, ptr)
    else
      match ProcsLines(lines[..|lines| - 1], t, ptr)
      case Duplicate(q) => Duplicate(q)
      case Passed(t1, p1) => ProcsNode(lines[|lines| - 1], t1, p1)
  }

  /** The labels pass adds one to the counter per counted instruction, and only
      appends to the table. */
  lemma {:induction false} LabelsCount(n: Ast.Node, prefix: Option<string>, t: seq<Symbol>, ptr: nat)
    requires LabelsNode(n, prefix, t, ptr).Passed?
    ensures LabelsNode(n, prefix, t, ptr).ptr == ptr + Count(n, Ast.Counted)
    ensures t <= LabelsNode(n, prefix, t, ptr).table
    ensures |LabelsNode(n, prefix, t, ptr).table| == |t| + Count(n, IsLabelDecl)
    decreases n, 1
  {
    match n
    case File(lines) => LabelsLinesCount(lines, None, t, ptr);
    case Proc(name, lines) => LabelsLinesCount(lines, Some(name), t, ptr);
    case _ =>
  }

  lemma {:induction false} LabelsLinesCount(lines: seq<Ast.Node>, prefix: Option<string>, t: seq<Symbol>, ptr: nat)
    requires LabelsLines(lines, prefix, t, ptr).Passed?
    ensures LabelsLines(lines, prefix, t, ptr).ptr == ptr + CountLines(lines, Ast.Counted)
    ensures t <= LabelsLines(lines, prefix, t, ptr).table
    ensures |LabelsLines(lines, prefix, t, ptr).table| == |t| + CountLines(lines, IsLabelDecl)
    decreases lines, 0
  {
    if lines != [] {
      var init := lines[..|lines| - 1];
      LabelsLinesCount(init, prefix, t, ptr);
      var r := LabelsLines(init, prefix, t, ptr);
      LabelsCount(lines[|lines| - 1], prefix, r.table, r.ptr);
    }
  }

  /** The same for the procedures pass. */
  lemma {:induction false} ProcsCount(n: Ast.Node, t: seq<Symbol>, ptr: nat)
    requires ProcsNode(n, t, ptr).Passed?
    ensures ProcsNode(n, t, ptr).ptr == ptr + Count(n, Ast.Counted)
    ensures t <= ProcsNode(n, t, ptr).table
    ensures |ProcsNode(n, t, ptr).table| == |t| + Count(n, IsProc)
    decreases n, 1
  {
    match n
    case File(lines) => ProcsLinesCount(lines, t, ptr);
    case Proc(name, lines) => ProcsLinesCount(lines, t + [Symbol(name, ptr)], ptr);
    case _ =>
  }

  lemma {:induction false} ProcsLinesCount(lines: seq<Ast.Node>, t: seq<Symbol>, ptr: nat)
    requires ProcsLines(lines, t, ptr).Passed?
    ensures ProcsLines(lines, t, ptr).ptr == ptr + CountLines(lines, Ast.Counted)
    ensures t <= ProcsLines(lines, t, ptr).table
    ensures |ProcsLines(lines, t, ptr).table| == |t| + CountLines(lines, IsProc)
    decreases lines, 0
  {
    if lines != [] {
      var init := lines[..|lines| - 1];
      ProcsLinesCount(init, t, ptr);
      var r := ProcsLines(init, t, ptr);
      ProcsCount(lines[|lines| - 1], r.table, r.ptr);
    }
  }

  /** A pass that stops on a prefix of the lines stops on the whole of them
      with the same name: `exit(1)` ends the walk. */
  lemma {:induction false} LabelsLinesStop(lines: seq<Ast.Node>, i: nat, prefix: Option<string>,
                                            t: seq<Symbol>, ptr: nat)
    requires i <= |lines| && LabelsLines(lines[..i], prefix, t, ptr).Duplicate?
    ensures LabelsLines(lines, prefix, t, ptr) == LabelsLines(lines[..i], prefix, t, ptr)
    decreases |lines| - i
  {
    if i == |lines| {
      assert lines[..i] == lines;
    } else {
      assert lines[..i + 1][..i] == lines[..i];
      LabelsLinesStop(lines, i + 1, prefix, t, ptr);
    }
  }

  lemma {:induction false} ProcsLinesStop(lines: seq<Ast.Node>, i: nat, t: seq<Symbol>, ptr: nat)
    requires i <= |lines| && ProcsLines(lines[..i], t, ptr).Duplicate?
    ensures ProcsLines(lines, t, ptr) == ProcsLines(lines[..i], t, ptr)
    decreases |lines| - i
  {
    if i == |lines| {
      assert lines[..i] == lines;
    } else {
      assert lines[..i + 1][..i] == lines[..i];
      ProcsLinesStop(lines, i + 1, t, ptr);
    }
  }

  /** Both passes count the same instructions: run from equal counters over the
      same tree, they end with equal counters. */
  lemma PassesAgree(n: Ast.Node, labels: seq<Symbol>, procs: seq<Symbol>, ptr: nat)
    requires LabelsNode(n, None, labels, ptr).Passed? && ProcsNode(n, procs, ptr).Passed?
    ensures LabelsNode(n, None, labels, ptr).ptr == ProcsNode(n, procs, ptr).ptr
  {
    LabelsCount(n, None, labels, ptr);
    ProcsCount(n, procs, ptr);
  }

  /** A procedure is recorded under its name with the counter value reached
      before its body, unless the name is taken, which stops the pass. */
  lemma ProcRecordedBeforeBody(name: string, lines: seq<Ast.Node>, t: seq<Symbol>, ptr: nat)
    ensures ProcsNode(Ast.Proc(name, lines), t, ptr).Passed? ==>
              && Find(t, name) == -1
              && |t| < |ProcsNode(Ast.Proc(name, lines), t, ptr).table|
              && ProcsNode(Ast.Proc(name, lines), t, ptr).table[|t|] == Symbol(name, ptr)
    ensures Find(t, name) != -1 ==> ProcsNode(Ast.Proc(name, lines), t, ptr) == Duplicate(name)
  {
    if Find(t, name) == -1 && ProcsLines(lines, t + [Symbol(name, ptr)], ptr).Passed? {
      ProcsLinesCount(lines, t + [Symbol(name, ptr)], ptr);
    }
  }

  /** The names of the labels under `n` as tasm_resolve_labels qualifies them. */
  function DeclaredNames(n: Ast.Node, prefix: Option<string>): set<string>
    decreases n, 1
  {
    match n
    case File(lines) => LinesDeclaredNames(lines, None)
    case Proc(name, lines) => LinesDeclaredNames(lines, Some(name))
    case LabelDecl(l) => {Qualify(prefix, l)}
    case _ => {}
  }

  function LinesDeclaredNames(lines: seq<Ast.Node>, prefix: Option<string>): set<string>
    decreases lines, 0
  {
    if lines == [] then {}
    else LinesDeclaredNames(lines[..|lines| - 1], prefix) + DeclaredNames(lines[|lines| - 1], prefix)
  }

  /** The labels pass adds exactly the qualified names of the labels it
      meets, and keeps the table free of repeated names. */
  lemma {:induction false} LabelsNames(n: Ast.Node, prefix: Option<string>, t: seq<Symbol>, ptr: nat)
    requires LabelsNode(n, prefix, t, ptr).Passed? && Unique(t)
    ensures Names(LabelsNode(n, prefix, t, ptr).table) == Names(t) + DeclaredNames(n, prefix)
    ensures Unique(LabelsNode(n, prefix, t, ptr).table)
    decreases n, 1
  {
    match n
    case File(lines) => LinesLabelsNames(lines, None, t, ptr);
    case Proc(name, lines) => LinesLabelsNames(lines, Some(name), t, ptr);
    case LabelDecl(l) =>
      var t' := t + [Symbol(Qualify(prefix, l), ptr)];
      assert Names(t') == Names(t) + {Qualify(prefix, l)} by {
        forall x | x in Names(t') ensures x in Names(t) + {Qualify(prefix, l)} {
          var i :| 0 <= i < |t'| && t'[i].name == x;
          if i < |t| { assert t[i].name == x; }
        }
        forall x | x in Names(t) ensures x in Names(t') {
          var i :| 0 <= i < |t| && t[i].name == x;
          assert t'[i].name == x;
        }
        assert t'[|t|].name == Qualify(prefix, l);
      }
    case _ =>
  }

  lemma {:induction false} LinesLabelsNames(lines: seq<Ast.Node>, prefix: Option<string>, t: seq<Symbol>, ptr: nat)
    requires LabelsLines(lines, prefix, t, ptr).Passed? && Unique(t)
    ensures Names(LabelsLines(lines, prefix, t, ptr).table) == Names(t) + LinesDeclaredNames(lines, prefix)
    ensures Unique(LabelsLines(lines, prefix, t, ptr).table)
    decreases lines, 0
  {
    if lines != [] {
      var init := lines[..|lines| - 1];
      LinesLabelsNames(init, prefix, t, ptr);
      var r := LabelsLines(init, prefix, t, ptr);
      LabelsNames(lines[|lines| - 1], prefix, r.table, r.ptr);
    }
  }

  // ---------------------------------------------------------------------------
  // Code generation

  /** What translation changes: `label_calls`, the program and `err`. */
  datatype Emit = Emit(calls: seq<Symbol>, program: seq<Tvm.Opcode>, err: bool)

  /** `r` follows `e` in a translation: `err`, once set, stays set; references
      and opcodes are only appended, at most `refs` references and at most
      `codes` opcodes. */
  predicate Extends(e: Emit, r: Emit, codes: nat, refs: nat) {
    && (e.err ==> r.err)
    && e.calls <= r.calls && |r.calls| <= |e.calls| + refs
    && e.program <= r.program && |r.program| <= |e.program| + codes
  }


  /** An opcode whose operand is set through `.operand.ui32` only: the
      object's type field stays zero, OBJECT_TYPE_ADDRESS. */
  function WithOperand(op: Tvm.OpType, bits: u32): Tvm.Opcode {
    Tvm.Opcode(op, Tvm.Object(Tvm.Address, bits))
  }

  /** `program_push`. */
  function Append(e: Emit, code: Tvm.Opcode): Emit {
    e.(program := e.program + [code])
  }

  /** `(uint32_t)` of a plain `char`, which is signed: a byte of 0x80 or more
      is sign-extended. */
  function CharCode(c: char): (r: u32)
    ensures c as int < 0x80 ==> r == c as int
    ensures 0x80 <= c as int < 0x100 ==> ToSigned(r) == c as int - 0x100
  {
    if 0x80 <= c as int < 0x100 then Wrap(c as int - 0x100) else Wrap(c as int)
  }

  /** `value[0]` of a character literal (the terminator of an empty one). */
  function FirstCharCode(s: string): u32 {
    if s == [] then 0 else CharCode(s[0])
  }

  /** The AST_LABEL_CALL case of tasm_translate_line: look the (qualified)
      name up, in the procedure table for a CALL at the top level and in the
      label table otherwise; record it in `label_calls`, or set `err`. */
  function ResolveCall(name: string, prefix: Option<string>, isCall: bool,
                       decls: seq<Symbol>, procs: seq<Symbol>, e: Emit): (r: Emit)
    ensures r.program == e.program
    ensures r.err <==> e.err || r.calls == e.calls
    ensures r.err <==> e.err || Find(if prefix.None? && isCall then procs else decls, Qualify(prefix, name)) == -1
    ensures !r.err ==> r.calls == e.calls + [Symbol(Qualify(prefix, name), Find(if prefix.None? && isCall then procs else decls, Qualify(prefix, name)))]
  {
    var q := Qualify(prefix, name);
    var addr := if prefix.None? && isCall then Find(procs, q) else Find(decls, q);
    if addr == -1 then e.(err := true) else e.(calls := e.calls + [Symbol(q, addr)])
  }

  /** A JMP, JZ or JNZ whose operand is a label call, as corrected: the jump
      goes to the address the label call itself resolved, and an unresolved
      label emits nothing. */
  function JumpStep(op: Tvm.OpType, name: string, prefix: Option<string>,
                    decls: seq<Symbol>, procs: seq<Symbol>, e: Emit): (r: Emit)
    ensures r.err <==> e.err || Find(decls, Qualify(prefix, name)) == -1
    ensures !e.err && Find(decls, Qualify(prefix, name)) != -1 ==>
              r.program == e.program + [WithOperand(op, Wrap(Find(decls, Qualify(prefix, name))))]
  {
    var e1 := ResolveCall(name, prefix, false, decls, procs, e);
    var a := Find(decls, Qualify(prefix, name));
    if a == -1 then e1 else Append(e1, WithOperand(op, Wrap(a)))
  }

  /** The same case as written: the target is looked up in `label_calls`,
      where a CALL to a procedure of the same name may have recorded a
      different address first. */
  function JumpStepAsWritten(op: Tvm.OpType, name: string, prefix: Option<string>,
                             decls: seq<Symbol>, procs: seq<Symbol>, e: Emit): (r: Emit)
    ensures r.err <==> e.err || Find(decls, Qualify(prefix, name)) == -1
  {
    var e1 := ResolveCall(name, prefix, false, decls, procs, e);
    var a := Find(e1.calls, Qualify(prefix, name));
    if a == -1 then e1 else Append(e1, WithOperand(op, Wrap(a)))
  }

  /** A CALL: resolved in the procedure table, with no prefix. */
  function CallStep(name: string, decls: seq<Symbol>, procs: seq<Symbol>, e: Emit): (r: Emit)
    ensures r.err <==> e.err || Find(procs, name) == -1
    ensures !e.err && Find(procs, name) != -1 ==>
              r.program == e.program + [WithOperand(Tvm.Call, Wrap(Find(procs, name)))]
  {
    var e1 := ResolveCall(name, None, true, decls, procs, e);
    var a := Find(procs, name);
    if a == -1 then e1 else Append(e1, WithOperand(Tvm.Call, Wrap(a)))
  }

  /** The instructions tasm_translate_line emits without reading an operand. */
  predicate IsBare(op: Ast.VmOp) {
    !Ast.NeedsOperand(op) && !op.Compare?
  }

  /** An instruction case of tasm_translate_line. The comparisons have no
      case there and emit nothing; neither does an operand of another kind
      than the instruction handles. */
  function InstEmit(op: Ast.VmOp, operand: Option<Ast.Node>, prefix: Option<string>,
                    decls: seq<Symbol>, procs: seq<Symbol>, e: Emit): (r: Emit)
    requires Ast.NeedsOperand(op) ==> operand.Some?
    ensures Extends(e, r, Indicator(!op.Compare?),
                    Indicator(op in {Tvm.Jmp, Tvm.Jz, Tvm.Jnz, Tvm.Call} && operand.Some? && operand.value.LabelCall?))
  {
    if IsBare(op) then Append(e, Tvm.BareOp(op))
    else if op.Compare? then e
    else
      var x := operand.value;
      if op == Tvm.Push then
        if x.Number? then Append(e, WithOperand(Tvm.Push, x.bits))
        else if x.Char? then Append(e, WithOperand(Tvm.Push, FirstCharCode(x.charValue)))
        else e
      else if op == Tvm.Cln || op == Tvm.Swap then
        if x.Number? then Append(e, WithOperand(op, x.bits)) else e
      else if op == Tvm.Call then
        if x.LabelCall? then CallStep(x.callName, decls, procs, e) else e
      else
        if x.Number? then Append(e, WithOperand(op, x.bits))
        else if x.LabelCall? then JumpStep(op, x.callName, prefix, decls, procs, e)
        else e
  }

  /** `tasm_translate_line`. */
  function LineEmit(n: Ast.Node, prefix: Option<string>, isCall: bool,
                    decls: seq<Symbol>, procs: seq<Symbol>, e: Emit): (r: Emit)
    requires Ast.OperandsPresent(n)
    ensures Extends(e, r, Indicator(Ast.Counted(n)), Indicator(RefersToSymbol(n)))
  {
    match n
    case Inst(tag, _, operand) => if tag.Vm? then InstEmit(tag.op, operand, prefix, decls, procs, e) else e
    case LabelCall(name) => ResolveCall(name, prefix, isCall, decls, procs, e)
    case _ => e
  }

  /** The loop of `tasm_translate_proc`: each line under the procedure's name. */
  function LinesEmit(lines: seq<Ast.Node>, prefix: Option<string>,
                     decls: seq<Symbol>, procs: seq<Symbol>, e: Emit): (r: Emit)
    requires Ast.LinesOperandsPresent(lines)
    ensures Extends(e, r, CountLines(lines, Ast.Counted), CountLines(lines, RefersToSymbol))
  {
    if lines == [] then e
    else LineEmit(lines[|lines| - 1], prefix, false, decls, procs,
                  LinesEmit(lines[..|lines| - 1], prefix, decls, procs, e))
  }

  /** `tasm_translate_proc_and_line`. */
  function ProcAndLineEmit(n: Ast.Node, decls: seq<Symbol>, procs: seq<Symbol>, e: Emit): (r: Emit)
    requires Ast.OperandsPresent(n)
    ensures Extends(e, r, Count(n, Ast.Counted), Count(n, RefersToSymbol))
  {
    if n.Proc? then LinesEmit(n.procLines, Some(n.procName), decls, procs, e)
    else LineEmit(n, None, false, decls, procs, e)
  }

  /** The loop of `tasm_translate_unit` over the lines of a file. */
  function UnitEmit(lines: seq<Ast.Node>, decls: seq<Symbol>, procs: seq<Symbol>, e: Emit): (r: Emit)
    requires Ast.LinesOperandsPresent(lines)
    ensures Extends(e, r, CountLines(lines, Ast.Counted), CountLines(lines, RefersToSymbol))
  {
    if lines == [] then e
    else ProcAndLineEmit(lines[|lines| - 1], decls, procs,
                         UnitEmit(lines[..|lines| - 1], decls, procs, e))
  }

  // ---------------------------------------------------------------------------
  // Properties of code generation

  /** A reference that does not resolve sets `err`, records nothing and emits
      nothing; one that resolves is recorded with the address it resolved to,
      and a branch then carries that very address. */
  predicate Recorded(e: Emit, r: Emit, op: Tvm.OpType) {
    if r.err then r.calls == e.calls && r.program == e.program
    else && |r.calls| == |e.calls| + 1
         && r.program == e.program + [WithOperand(op, Wrap(r.calls[|e.calls|].addr))]
  }

  /** JMP, JZ and JNZ resolve in the label table under the procedure prefix,
      and the corrected jump carries the recorded address. */
  lemma JumpStepRecorded(op: Tvm.OpType, name: string, prefix: Option<string>,
                         decls: seq<Symbol>, procs: seq<Symbol>, e: Emit)
    requires !e.err
    ensures Recorded(e, JumpStep(op, name, prefix, decls, procs, e), op)
    ensures var r := JumpStep(op, name, prefix, decls, procs, e);
            r.err <==> Find(decls, Qualify(prefix, name)) == -1
    ensures var r := JumpStep(op, name, prefix, decls, procs, e);
            !r.err ==> r.calls[|e.calls|] == Symbol(Qualify(prefix, name), Find(decls, Qualify(prefix, name)))
  {
  }

  /** CALL resolves in the procedure table with no prefix, and carries the
      recorded address. */
  lemma CallStepRecorded(name: string, decls: seq<Symbol>, procs: seq<Symbol>, e: Emit)
    requires !e.err
    ensures Recorded(e, CallStep(name, decls, procs, e), Tvm.Call)
    ensures var r := CallStep(name, decls, procs, e);
            r.err <==> Find(procs, name) == -1
    ensures var r := CallStep(name, decls, procs, e);
            !r.err ==> r.calls[|e.calls|] == Symbol(name, Find(procs, name))
  {
  }

  /** The reference an instruction's operand makes resolves: a CALL's in the
      procedure table, a jump's under the prefix in the label table. */
  predicate OperandResolves(op: Ast.VmOp, operand: Option<Ast.Node>, prefix: Option<string>,
                            decls: seq<Symbol>, procs: seq<Symbol>)
  {
    operand.Some? && operand.value.LabelCall? ==>
      && (op == Tvm.Call ==> Find(procs, operand.value.callName) != -1)
      && (op in {Tvm.Jmp, Tvm.Jz, Tvm.Jnz} ==> Find(decls, Qualify(prefix, operand.value.callName)) != -1)
  }

  /** Every reference a line makes resolves. */
  predicate Resolves(n: Ast.Node, prefix: Option<string>, isCall: bool,
                     decls: seq<Symbol>, procs: seq<Symbol>)
  {
    match n
    case Inst(tag, _, operand) => tag.Vm? ==> OperandResolves(tag.op, operand, prefix, decls, procs)
    case LabelCall(name) => Find(if prefix.None? && isCall then procs else decls, Qualify(prefix, name)) != -1
    case _ => true
  }

  /** Every reference of the lines of a procedure resolves. */
  predicate LinesResolve(lines: seq<Ast.Node>, prefix: Option<string>,
                         decls: seq<Symbol>, procs: seq<Symbol>)
  {
    forall i | 0 <= i < |lines| :: Resolves(lines[i], prefix, false, decls, procs)
  }

  /** Every reference of a line of a file resolves, inside a procedure under
      its name. */
  predicate TopResolves(n: Ast.Node, decls: seq<Symbol>, procs: seq<Symbol>) {
    if n.Proc? then LinesResolve(n.procLines, Some(n.procName), decls, procs)
    else Resolves(n, None, false, decls, procs)
  }

  /** Every reference of a file resolves. */
  predicate UnitResolves(lines: seq<Ast.Node>, decls: seq<Symbol>, procs: seq<Symbol>) {
    forall i | 0 <= i < |lines| :: TopResolves(lines[i], decls, procs)
  }

  /** An instruction sets `err` exactly when the reference it makes does not
      resolve. */
  lemma InstEmitErr(op: Ast.VmOp, operand: Option<Ast.Node>, prefix: Option<string>,
                    decls: seq<Symbol>, procs: seq<Symbol>, e: Emit)
    requires Ast.NeedsOperand(op) ==> operand.Some?
    ensures InstEmit(op, operand, prefix, decls, procs, e).err
            <==> e.err || !OperandResolves(op, operand, prefix, decls, procs)
  {
  }

  /** A line sets `err` exactly when one of its references does not resolve. */
  lemma LineEmitErr(n: Ast.Node, prefix: Option<string>, isCall: bool,
                    decls: seq<Symbol>, procs: seq<Symbol>, e: Emit)
    requires Ast.OperandsPresent(n)
    ensures LineEmit(n, prefix, isCall, decls, procs, e).err
            <==> e.err || !Resolves(n, prefix, isCall, decls, procs)
  {
    if n.Inst? && n.tag.Vm? {
      InstEmitErr(n.tag.op, n.operand, prefix, decls, procs, e);
    }
  }

  /** The lines of a procedure set `err` exactly when one of their references
      does not resolve. */
  lemma {:induction false} LinesEmitErr(lines: seq<Ast.Node>, prefix: Option<string>,
                                        decls: seq<Symbol>, procs: seq<Symbol>, e: Emit)
    requires Ast.LinesOperandsPresent(lines)
    ensures LinesEmit(lines, prefix, decls, procs, e).err
            <==> e.err || !LinesResolve(lines, prefix, decls, procs)
  {
    if lines != [] {
      var init, last := lines[..|lines| - 1], lines[|lines| - 1];
      assert Ast.LinesOperandsPresent(init) by {
        forall i | 0 <= i < |init| ensures Ast.OperandsPresent(init[i]) { assert init[i] == lines[i]; }
      }
      LinesEmitErr(init, prefix, decls, procs, e);
      assert Ast.OperandsPresent(last);
      LineEmitErr(last, prefix, false, decls, procs, LinesEmit(init, prefix, decls, procs, e));
      LinesResolveSnoc(lines, prefix, decls, procs);
    }
  }

  /** Lines resolve exactly when all but the last do and the last does. */
  lemma LinesResolveSnoc(lines: seq<Ast.Node>, prefix: Option<string>, decls: seq<Symbol>, procs: seq<Symbol>)
    requires lines != []
    ensures LinesResolve(lines, prefix, decls, procs)
            <==> LinesResolve(lines[..|lines| - 1], prefix, decls, procs)
                 && Resolves(lines[|lines| - 1], prefix, false, decls, procs)
  {
    var init := lines[..|lines| - 1];
    if LinesResolve(init, prefix, decls, procs) && Resolves(lines[|lines| - 1], prefix, false, decls, procs) {
      forall i | 0 <= i < |lines| ensures Resolves(lines[i], prefix, false, decls, procs) {
        if i < |init| { assert lines[i] == init[i]; }
      }
    }
    if LinesResolve(lines, prefix, decls, procs) {
      forall i | 0 <= i < |init| ensures Resolves(init[i], prefix, false, decls, procs) {
        assert init[i] == lines[i];
      }
    }
  }

  /** A line of a file sets `err` exactly when one of its references does not
      resolve. */
  lemma ProcAndLineEmitErr(n: Ast.Node, decls: seq<Symbol>, procs: seq<Symbol>, e: Emit)
    requires Ast.OperandsPresent(n)
    ensures ProcAndLineEmit(n, decls, procs, e).err <==> e.err || !TopResolves(n, decls, procs)
  {
    if n.Proc? {
      LinesEmitErr(n.procLines, Some(n.procName), decls, procs, e);
    } else {
      LineEmitErr(n, None, false, decls, procs, e);
    }
  }

  /** Translating a file sets `err` exactly when one of its references does
      not resolve. */
  lemma {:induction false} UnitEmitErr(lines: seq<Ast.Node>, decls: seq<Symbol>, procs: seq<Symbol>, e: Emit)
    requires Ast.LinesOperandsPresent(lines)
    ensures UnitEmit(lines, decls, procs, e).err <==> e.err || !UnitResolves(lines, decls, procs)
  {
    if lines != [] {
      var init, last := lines[..|lines| - 1], lines[|lines| - 1];
      assert Ast.LinesOperandsPresent(init) by {
        forall i | 0 <= i < |init| ensures Ast.OperandsPresent(init[i]) { assert init[i] == lines[i]; }
      }
      UnitEmitErr(init, decls, procs, e);
      assert Ast.OperandsPresent(last);
      ProcAndLineEmitErr(last, decls, procs, UnitEmit(init, decls, procs, e));
      UnitResolvesSnoc(lines, decls, procs);
    }
  }

  /** A file resolves exactly when all lines but the last do and the last does. */
  lemma UnitResolvesSnoc(lines: seq<Ast.Node>, decls: seq<Symbol>, procs: seq<Symbol>)
    requires lines != []
    ensures UnitResolves(lines, decls, procs)
            <==> UnitResolves(lines[..|lines| - 1], decls, procs) && TopResolves(lines[|lines| - 1], decls, procs)
  {
    var init := lines[..|lines| - 1];
    if UnitResolves(init, decls, procs) && TopResolves(lines[|lines| - 1], decls, procs) {
      forall i | 0 <= i < |lines| ensures TopResolves(lines[i], decls, procs) {
        if i < |init| { assert lines[i] == init[i]; }
      }
    }
    if UnitResolves(lines, decls, procs) {
      forall i | 0 <= i < |init| ensures TopResolves(init[i], decls, procs) {
        assert init[i] == lines[i];
      }
    }
  }

  /** The two jump lookups agree on the first reference to a name. */
  lemma AsWrittenAgreesOnFirstReference(op: Tvm.OpType, name: string, prefix: Option<string>,
                                        decls: seq<Symbol>, procs: seq<Symbol>, e: Emit)
    requires Find(e.calls, Qualify(prefix, name)) == -1
    ensures JumpStepAsWritten(op, name, prefix, decls, procs, e)
            == JumpStep(op, name, prefix, decls, procs, e)
  {
    var q := Qualify(prefix, name);
    var e1 := ResolveCall(name, prefix, false, decls, procs, e);
    if Find(decls, q) != -1 {
      assert e1.calls == e.calls + [Symbol(q, Find(decls, q))];
      FindFirst(e1.calls, q, |e.calls|);
    }
  }

  /** The program `proc foo ret endp` / `foo:` / `call foo` / `jmp foo`:
      a procedure and a label that share the name `foo`. */
  function SharedNameFile(): seq<Ast.Node> {
    [ Ast.Proc("foo", [Ast.Inst(Ast.Vm(Tvm.Ret), "ret", None)]),
      Ast.LabelDecl("foo"),
      Ast.Inst(Ast.Vm(Tvm.Call), "call", Some(Ast.LabelCall("foo"))),
      Ast.Inst(Ast.Vm(Tvm.Jmp), "jmp", Some(Ast.LabelCall("foo"))) ]
  }

  lemma SharedNameLabels()
    ensures LabelsNode(Ast.File(SharedNameFile()), None, [], 0) == Passed([Symbol("foo", 1)], 3)
  {
    var lines := SharedNameFile();
    SharedNameLabelsHead();
    assert Ast.Counted(lines[2]) && Ast.Counted(lines[3]);
    assert lines[..3][..2] == lines[..2];
    assert LabelsLines(lines[..3], None, [], 0) == Passed([Symbol("foo", 1)], 2);
    assert lines[..4][..3] == lines[..3] && lines[..4] == lines;
  }

  lemma SharedNameProcs()
    ensures ProcsNode(Ast.File(SharedNameFile()), [], 0) == Passed([Symbol("foo", 0)], 3)
  {
    var lines := SharedNameFile();
    var procs := [Symbol("foo", 0)];
    SharedNameProcsHead();
    assert Ast.Counted(lines[2]) && Ast.Counted(lines[3]);
    assert lines[..3][..2] == lines[..2];
    assert ProcsLines(lines[..3], [], 0) == Passed(procs, 2);
    assert lines[..4][..3] == lines[..3] && lines[..4] == lines;
  }

  /** The labels pass over `proc foo ret endp` / `foo:`. */
  lemma SharedNameLabelsHead()
    ensures LabelsLines(SharedNameFile()[..2], None, [], 0) == Passed([Symbol("foo", 1)], 1)
  {
    var lines := SharedNameFile();
    var ret := Ast.Inst(Ast.Vm(Tvm.Ret), "ret", None);
    assert Ast.Counted(ret);
    assert [ret][..0] == [] && lines[..1][..0] == [];
    assert LabelsLines([ret], Some("foo"), [], 0) == Passed([], 1);
    assert LabelsLines(lines[..1], None, [], 0) == Passed([], 1);
    assert lines[..2][..1] == lines[..1];
  }

  /** The procedures pass over `proc foo ret endp` / `foo:`. */
  lemma SharedNameProcsHead()
    ensures ProcsLines(SharedNameFile()[..2], [], 0) == Passed([Symbol("foo", 0)], 1)
  {
    var lines := SharedNameFile();
    var ret := Ast.Inst(Ast.Vm(Tvm.Ret), "ret", None);
    var procs := [Symbol("foo", 0)];
    assert Ast.Counted(ret);
    assert [ret][..0] == [] && lines[..1][..0] == [];
    assert ProcsLines([ret], procs, 0) == Passed(procs, 1);
    assert ProcsLines(lines[..1], [], 0) == Passed(procs, 1);
    assert lines[..2][..1] == lines[..1];
  }

  lemma SharedNameProc()
    ensures UnitEmit(SharedNameFile()[..2], [Symbol("foo", 1)], [Symbol("foo", 0)], Emit([], [], false))
            == Emit([], [Tvm.BareOp(Tvm.Ret)], false)
  {
    var lines := SharedNameFile();
    var ret := Ast.Inst(Ast.Vm(Tvm.Ret), "ret", None);
    var decls := [Symbol("foo", 1)];
    var procs := [Symbol("foo", 0)];
    var e0 := Emit([], [], false);
    var e1 := Emit([], [Tvm.BareOp(Tvm.Ret)], false);
    assert [ret][..0] == [] && lines[..1][..0] == [];
    assert LinesEmit([ret], Some("foo"), decls, procs, e0) == e1;
    assert UnitEmit(lines[..1], decls, procs, e0) == e1;
    assert lines[..2][..1] == lines[..1];
  }

  lemma SharedNameCall()
    ensures ProcAndLineEmit(SharedNameFile()[2], [Symbol("foo", 1)], [Symbol("foo", 0)],
                            Emit([], [Tvm.BareOp(Tvm.Ret)], false))
            == Emit([Symbol("foo", 0)], [Tvm.BareOp(Tvm.Ret), WithOperand(Tvm.Call, 0)], false)
  {
    var e1 := Emit([], [Tvm.BareOp(Tvm.Ret)], false);
    assert CallStep("foo", [Symbol("foo", 1)], [Symbol("foo", 0)], e1)
           == Emit([Symbol("foo", 0)], [Tvm.BareOp(Tvm.Ret), WithOperand(Tvm.Call, 0)], false);
  }

  /** The state `call foo` leaves behind in `SharedNameFile`. */
  lemma SharedNameBeforeJump()
    ensures UnitEmit(SharedNameFile()[..3], [Symbol("foo", 1)], [Symbol("foo", 0)], Emit([], [], false))
            == Emit([Symbol("foo", 0)], [Tvm.BareOp(Tvm.Ret), WithOperand(Tvm.Call, 0)], false)
  {
    SharedNameProc();
    SharedNameCall();
    var lines := SharedNameFile();
    assert lines[..3][..2] == lines[..2] && lines[..3][2] == lines[2];
  }

  /** The as-written `jmp foo` step, taken in the state `call foo` left behind. */
  lemma AsWrittenJumpAfterCall()
    ensures var e := Emit([Symbol("foo", 0)], [Tvm.BareOp(Tvm.Ret), WithOperand(Tvm.Call, 0)], false);
            var r := JumpStepAsWritten(Tvm.Jmp, "foo", None, [Symbol("foo", 1)], [Symbol("foo", 0)], e);
            && r == Emit([Symbol("foo", 0), Symbol("foo", 1)],
                         [Tvm.BareOp(Tvm.Ret), WithOperand(Tvm.Call, 0), WithOperand(Tvm.Jmp, 0)], false)
            && !Recorded(e, r, Tvm.Jmp)
  {
    var e := Emit([Symbol("foo", 0)], [Tvm.BareOp(Tvm.Ret), WithOperand(Tvm.Call, 0)], false);
    var e1 := ResolveCall("foo", None, false, [Symbol("foo", 1)], [Symbol("foo", 0)], e);
    assert Find([Symbol("foo", 1)], "foo") == 1;
    assert e1 == Emit([Symbol("foo", 0), Symbol("foo", 1)], e.program, false);
    assert Find(e1.calls, "foo") == 0;
    var r := JumpStepAsWritten(Tvm.Jmp, "foo", None, [Symbol("foo", 1)], [Symbol("foo", 0)], e);
    assert r == Append(e1, WithOperand(Tvm.Jmp, Wrap(0)));
    assert r.program == e.program + [WithOperand(Tvm.Jmp, 0)];
    assert r.calls[|e.calls|].addr == 1 && Wrap(1) == 1;
    assert r.program[2] != (e.program + [WithOperand(Tvm.Jmp, 1)])[2];
    assert !Recorded(e, r, Tvm.Jmp);
    assert r == Emit([Symbol("foo", 0), Symbol("foo", 1)],
                     [Tvm.BareOp(Tvm.Ret), WithOperand(Tvm.Call, 0), WithOperand(Tvm.Jmp, 0)], false);
  }

  /** As written, the `jmp foo` of `SharedNameFile` jumps to the procedure
      (address 0), because `call foo` recorded that address in `label_calls`
      first; the label `foo` is at address 1. */
  lemma AsWrittenJumpsToProcedure()
    ensures var e := UnitEmit(SharedNameFile()[..3], [Symbol("foo", 1)], [Symbol("foo", 0)], Emit([], [], false));
            var r := JumpStepAsWritten(Tvm.Jmp, "foo", None, [Symbol("foo", 1)], [Symbol("foo", 0)], e);
            && r.program == [Tvm.BareOp(Tvm.Ret), WithOperand(Tvm.Call, 0), WithOperand(Tvm.Jmp, 0)]
            && !Recorded(e, r, Tvm.Jmp)
  {
    SharedNameBeforeJump();
    AsWrittenJumpAfterCall();
    var e := UnitEmit(SharedNameFile()[..3], [Symbol("foo", 1)], [Symbol("foo", 0)], Emit([], [], false));
    assert e == Emit([Symbol("foo", 0)], [Tvm.BareOp(Tvm.Ret), WithOperand(Tvm.Call, 0)], false);
    var r := JumpStepAsWritten(Tvm.Jmp, "foo", None, [Symbol("foo", 1)], [Symbol("foo", 0)], e);
    assert r.program == [Tvm.BareOp(Tvm.Ret), WithOperand(Tvm.Call, 0), WithOperand(Tvm.Jmp, 0)];
    assert !Recorded(e, r, Tvm.Jmp);
  }

  /** As written, an unresolved `jmp foo` after a `call foo` still emits a
      jump, to the procedure, although `err` is set. */
  lemma AsWrittenEmitsUnresolvedJump()
    ensures var procs := [Symbol("foo", 0)];
            var e := CallStep("foo", [], procs, Emit([], [], false));
            var r := JumpStepAsWritten(Tvm.Jmp, "foo", None, [], procs, e);
            && r.err && r.program == e.program + [WithOperand(Tvm.Jmp, 0)]
            && !Recorded(e, r, Tvm.Jmp)
  {
  }

  /** Corrected, `SharedNameFile` jumps to the label. */
  lemma CorrectedJumpsToLabel()
    ensures UnitEmit(SharedNameFile(), [Symbol("foo", 1)], [Symbol("foo", 0)], Emit([], [], false)).program
            == [Tvm.BareOp(Tvm.Ret), WithOperand(Tvm.Call, 0), WithOperand(Tvm.Jmp, 1)]
  {
    SharedNameBeforeJump();
    CorrectedJumpAfterCall();
    SharedNameJumpLine(Emit([Symbol("foo", 0)], [Tvm.BareOp(Tvm.Ret), WithOperand(Tvm.Call, 0)], false));
    var lines := SharedNameFile();
    assert lines[..4][..3] == lines[..3];
    assert lines[..4] == lines;
  }

  /** The line `jmp foo` of `SharedNameFile` is the corrected jump step. */
  lemma SharedNameJumpLine(e: Emit)
    ensures ProcAndLineEmit(SharedNameFile()[3], [Symbol("foo", 1)], [Symbol("foo", 0)], e)
            == JumpStep(Tvm.Jmp, "foo", None, [Symbol("foo", 1)], [Symbol("foo", 0)], e)
  {
  }

  /** The corrected `jmp foo` step, taken in the state `call foo` left behind. */
  lemma CorrectedJumpAfterCall()
    ensures JumpStep(Tvm.Jmp, "foo", None, [Symbol("foo", 1)], [Symbol("foo", 0)],
                     Emit([Symbol("foo", 0)], [Tvm.BareOp(Tvm.Ret), WithOperand(Tvm.Call, 0)], false)).program
            == [Tvm.BareOp(Tvm.Ret), WithOperand(Tvm.Call, 0), WithOperand(Tvm.Jmp, 1)]
  {
    assert Find([Symbol("foo", 1)], "foo") == 1;
  }

  /** Each instruction emits the opcode of its own kind: an operand-free one
      with a zero operand, PUSH, CLN, SWAP and the jumps with a number
      forward its 32 bits, a character PUSH its first character's code. */
  lemma InstEmitOpcode(op: Ast.VmOp, operand: Option<Ast.Node>, prefix: Option<string>,
                       decls: seq<Symbol>, procs: seq<Symbol>, e: Emit)
    requires Ast.NeedsOperand(op) ==> operand.Some?
    ensures var r := InstEmit(op, operand, prefix, decls, procs, e);
            && (IsBare(op) ==> r.program == e.program + [Tvm.Opcode(op, Tvm.ZERO_OBJECT)]
                               && r.calls == e.calls && r.err == e.err)
            && (op.Compare? ==> r == e)
            && (op in {Tvm.Push, Tvm.Cln, Tvm.Swap, Tvm.Jmp, Tvm.Jz, Tvm.Jnz} && operand.Some?
                && operand.value.Number? ==>
                  r.program == e.program + [Tvm.Opcode(op, Tvm.Object(Tvm.Address, operand.value.bits))]
                  && r.calls == e.calls && r.err == e.err)
            && (op == Tvm.Push && operand.Some? && operand.value.Char? ==>
                  r.program == e.program + [Tvm.Opcode(op, Tvm.Object(Tvm.Address, FirstCharCode(operand.value.charValue)))])
  {
  }

  /** A line the parser builds that translates without error emits exactly
      one opcode if it is an instruction and none if it is a label. */
  lemma ProcLineEmitsExactly(n: Ast.Node, prefix: Option<string>, isCall: bool,
                             decls: seq<Symbol>, procs: seq<Symbol>, e: Emit)
    requires P.ProcLine(n)
    ensures Ast.OperandsPresent(n)
    ensures var r := LineEmit(n, prefix, isCall, decls, procs, e);
            !r.err ==> |r.program| == |e.program| + Indicator(Ast.Counted(n))
  {
    if n.Inst? {
      var op, x := n.tag.op, n.operand;
      assert P.Fits(P.FormOf(op), x);
      if op == Tvm.Call {
        var r := CallStep(x.value.callName, decls, procs, e);
        assert !r.err ==> |r.program| == |e.program| + 1;
      } else if op == Tvm.Jmp || op == Tvm.Jnz {
        if x.value.LabelCall? {
          var r := JumpStep(op, x.value.callName, prefix, decls, procs, e);
          assert !r.err ==> |r.program| == |e.program| + 1;
        }
      }
    }
  }

  /** The lines of a procedure body, translated without error, emit one
      opcode per instruction. */
  lemma {:induction false} LinesEmitExactly(lines: seq<Ast.Node>, prefix: Option<string>,
                                            decls: seq<Symbol>, procs: seq<Symbol>, e: Emit)
    requires forall i | 0 <= i < |lines| :: P.ProcLine(lines[i])
    ensures Ast.LinesOperandsPresent(lines)
    ensures var r := LinesEmit(lines, prefix, decls, procs, e);
            !r.err ==> |r.program| == |e.program| + CountLines(lines, Ast.Counted)
  {
    forall i | 0 <= i < |lines| ensures Ast.OperandsPresent(lines[i]) {
      ProcLineEmitsExactly(lines[i], prefix, false, decls, procs, e);
    }
    if lines != [] {
      var init, last := lines[..|lines| - 1], lines[|lines| - 1];
      assert forall i | 0 <= i < |init| :: init[i] == lines[i];
      LinesEmitExactly(init, prefix, decls, procs, e);
      var m := LinesEmit(init, prefix, decls, procs, e);
      ProcLineEmitsExactly(last, prefix, false, decls, procs, m);
    }
  }

  /** A file the parser builds, translated without error, emits one opcode
      per instruction. */
  lemma {:induction false} UnitEmitExactly(lines: seq<Ast.Node>, decls: seq<Symbol>, procs: seq<Symbol>, e: Emit)
    requires forall i | 0 <= i < |lines| :: P.TopLine(lines[i])
    ensures Ast.LinesOperandsPresent(lines)
    ensures var r := UnitEmit(lines, decls, procs, e);
            !r.err ==> |r.program| == |e.program| + CountLines(lines, Ast.Counted)
  {
    P.FileHasOperands(lines);
    if lines != [] {
      var init, last := lines[..|lines| - 1], lines[|lines| - 1];
      assert forall i | 0 <= i < |init| :: init[i] == lines[i];
      UnitEmitExactly(init, decls, procs, e);
      var m := UnitEmit(init, decls, procs, e);
      assert P.TopLine(last);
      if last.Proc? {
        LinesEmitExactly(last.procLines, Some(last.procName), decls, procs, m);
      } else {
        ProcLineEmitsExactly(last, None, false, decls, procs, m);
      }
    }
  }

  /** After both passes and a translation without error of a file the parser
      builds, `label_address_pointer`, `proc_address_pointer` and
      `program_size` are equal: every address the passes handed out is an
      index into the program or its end. The translation is without error
      exactly when every reference of the file resolves. */
  lemma CleanTranslationAgrees(lines: seq<Ast.Node>)
    requires forall i | 0 <= i < |lines| :: P.TopLine(lines[i])
    requires LabelsNode(Ast.File(lines), None, [], 0).Passed?
    requires ProcsNode(Ast.File(lines), [], 0).Passed?
    ensures Ast.LinesOperandsPresent(lines)
    ensures var labels := LabelsNode(Ast.File(lines), None, [], 0);
            var procs := ProcsNode(Ast.File(lines), [], 0);
            var r := UnitEmit(lines, labels.table, procs.table, Emit([], [], false));
            !r.err ==> labels.ptr == procs.ptr == |r.program|
    ensures var labels := LabelsNode(Ast.File(lines), None, [], 0);
            var procs := ProcsNode(Ast.File(lines), [], 0);
            var r := UnitEmit(lines, labels.table, procs.table, Emit([], [], false));
            r.err <==> !UnitResolves(lines, labels.table, procs.table)
  {
    var labels := LabelsNode(Ast.File(lines), None, [], 0);
    var procs := ProcsNode(Ast.File(lines), [], 0);
    UnitEmitExactly(lines, labels.table, procs.table, Emit([], [], false));
    UnitEmitErr(lines, labels.table, procs.table, Emit([], [], false));
    LabelsCount(Ast.File(lines), None, [], 0);
    ProcsCount(Ast.File(lines), [], 0);
  }

  /** Inside procedure `p`, a reference to `m` is looked up as `p$pm` (the
      parser's rename, then the translator's prefix), which is the name of a
      declared label `l` of `p` exactly when `l` is `pm`: a reference to a
      label of the procedure, written by its own name, finds it only when
      the procedure's name is empty. */
  lemma ProcLocalReference(p: string, m: string, l: string)
    ensures Qualify(Some(p), P.Renamed(Some(p), Ast.LabelCall(m)).callName) == Qualify(Some(p), l)
            <==> l == p + m
    ensures p != "" ==> Qualify(Some(p), P.Renamed(Some(p), Ast.LabelCall(m)).callName) != Qualify(Some(p), m)
  {
    var k := |p| + 1;
    var x := Qualify(Some(p), P.Renamed(Some(p), Ast.LabelCall(m)).callName);
    var y := Qualify(Some(p), l);
    assert x[k..] == p + m;
    assert y[k..] == l;
    if l == p + m {
      assert x == y;
    }
    if p != "" {
      assert |p + m| != |m|;
    }
  }

  // ---------------------------------------------------------------------------
  // The translator object

  /** `tasm_translator_t`: the fixed-size symbol arrays and program with their
      size counters, the two address counters and the error flag. The names
      the arena holds are string values here. */
  class Translator {
    const labelDecls: array<Symbol>
    var labelDeclsSize: nat
    var labelAddressPointer: nat
    const labelCalls: array<Symbol>
    var labelCallsSize: nat
    const procDecls: array<Symbol>
    var procDeclsSize: nat
    var procAddressPointer: nat
    var err: bool
    const program: array<Tvm.Opcode>
    var programSize: nat

    ghost predicate Valid()
      reads this
    {
      && labelDecls.Length == SYMBOL_LABEL_DECL_CAPACITY
      && labelCalls.Length == SYMBOL_LABEL_CALL_CAPACITY
      && procDecls.Length == SYMBOL_PROC_DECL_CAPACITY
      && program.Length == MAX_PROGRAM_CAPACITY
      && labelDeclsSize <= labelDecls.Length
      && labelCallsSize <= labelCalls.Length
      && procDeclsSize <= procDecls.Length
      && programSize <= program.Length
      && labelDecls != labelCalls && labelDecls != procDecls && labelCalls != procDecls
    }

    /** The used part of `label_decls`. */
    ghost function Decls(): seq<Symbol>
      requires Valid()
      reads this, labelDecls
    {
      labelDecls[..labelDeclsSize]
    }

    /** The used part of `label_calls`. */
    ghost function Calls(): seq<Symbol>
      requires Valid()
      reads this, labelCalls
    {
      labelCalls[..labelCallsSize]
    }

    /** The used part of `proc_decls`. */
    ghost function Procs(): seq<Symbol>
      requires Valid()
      reads this, procDecls
    {
      procDecls[..procDeclsSize]
    }

    /** The emitted part of `program`. */
    ghost function Program(): seq<Tvm.Opcode>
      requires Valid()
      reads this, program
    {
      program[..programSize]
    }

    /** What translation changes, as a value. */
    ghost function Emitted(): Emit
      requires Valid()
      reads this, labelCalls, program
    {
      Emit(Calls(), Program(), err)
    }

    /** `tasm_translator_init`. */
    constructor ()
      ensures Valid()
      ensures fresh(labelDecls) && fresh(labelCalls) && fresh(procDecls) && fresh(program)
      ensures Decls() == [] && Calls() == [] && Procs() == [] && Program() == []
      ensures labelAddressPointer == 0 && procAddressPointer == 0 && !err
    {
      labelDecls := new Symbol[SYMBOL_LABEL_DECL_CAPACITY](_ => Symbol("", 0));
      labelCalls := new Symbol[SYMBOL_LABEL_CALL_CAPACITY](_ => Symbol("", 0));
      procDecls := new Symbol[SYMBOL_PROC_DECL_CAPACITY](_ => Symbol("", 0));
      program := new Tvm.Opcode[MAX_PROGRAM_CAPACITY](_ => Tvm.ZERO_OPCODE);
      labelDeclsSize, labelCallsSize, procDeclsSize, programSize := 0, 0, 0, 0;
      labelAddressPointer, procAddressPointer := 0, 0;
      err := false;
    }

    /** The search loop of the get_addr_from_*_symbol lookups: the address of
        the first of the first `size` entries with the name, or -1. */
    static method FindIn(a: array<Symbol>, size: nat, name: string) returns (addr: int)
      requires size <= a.Length
      ensures addr == Find(a[..size], name)
    {
      var i := 0;
      while i < size
        invariant i <= size
        invariant forall j | 0 <= j < i :: a[..size][j].name != name
      {
        if a[i].name == name {
          assert a[..size][i] == a[i];
          FindFirst(a[..size], name, i);
          return a[i].addr;
        }
        i := i + 1;
      }
      return -1;
    }

    /** `get_addr_from_label_decl_symbol`. */
    method LabelDeclAddr(name: string) returns (addr: int)
      requires Valid()
      ensures addr == Find(Decls(), name)
    {
      addr := FindIn(labelDecls, labelDeclsSize, name);
    }

    /** `get_addr_from_label_call_symbol`. */
    method LabelCallAddr(name: string) returns (addr: int)
      requires Valid()
      ensures addr == Find(Calls(), name)
    {
      addr := FindIn(labelCalls, labelCallsSize, name);
    }

    /** `get_addr_from_proc_decl_symbol`. */
    method ProcDeclAddr(name: string) returns (addr: int)
      requires Valid()
      ensures addr == Find(Procs(), name)
    {
      addr := FindIn(procDecls, procDeclsSize, name);
    }

    /** `is_err`: whether the translation so far hit an unresolved reference. */
    function IsErr(): (b: bool)
      requires Valid()
      reads this, labelCalls, program
      ensures b <==> Emitted().err
    {
      err
    }

    /** `program_push`: the opcode goes at `program_size`, which grows by one. */
    method ProgramPush(code: Tvm.Opcode)
      requires Valid() && programSize < program.Length
      modifies program, this`programSize
      ensures Valid()
      ensures Program() == old(Program()) + [code]
    {
      program[programSize] := code;
      programSize := programSize + 1;
      assert Program() == old(Program()) + [code];
    }

    /** `tasm_resolve_labels`: the table and counter become those of the labels
        pass, or, on a duplicate name, `err` is set and the walk stops
        (`exit(1)`). */
    method ResolveLabels(n: Ast.Node, prefix: Option<string>) returns (ok: bool)
      requires Valid() && labelDeclsSize + Count(n, IsLabelDecl) <= labelDecls.Length
      modifies labelDecls, this`labelDeclsSize, this`labelAddressPointer, this`err
      ensures Valid()
      ensures var pass := LabelsNode(n, prefix, old(Decls()), old(labelAddressPointer));
              && (ok <==> pass.Passed?)
              && (ok ==> Decls() == pass.table && labelAddressPointer == pass.ptr && err == old(err))
              && (!ok ==> err)
      decreases n, 1
    {
      if n.File? {
        ok := ResolveLabelsLines(n.lines, None);
      } else if n.Proc? {
        ok := ResolveLabelsLines(n.procLines, Some(n.procName));
      } else if n.LabelDecl? {
        var q := Qualify(prefix, n.declName);
        var found := FindIn(labelDecls, labelDeclsSize, q);
        if found != -1 {
          err := true;
          return false;
        }
        labelDecls[labelDeclsSize] := Symbol(q, labelAddressPointer);
        labelDeclsSize := labelDeclsSize + 1;
        assert Decls() == old(Decls()) + [Symbol(q, old(labelAddressPointer))];
        ok := true;
      } else {
        if Ast.Counted(n) {
          labelAddressPointer := labelAddressPointer + 1;
        }
        ok := true;
      }
    }

    /** The loop over the lines of a file or a procedure. */
    method ResolveLabelsLines(lines: seq<Ast.Node>, prefix: Option<string>) returns (ok: bool)
      requires Valid() && labelDeclsSize + CountLines(lines, IsLabelDecl) <= labelDecls.Length
      modifies labelDecls, this`labelDeclsSize, this`labelAddressPointer, this`err
      ensures Valid()
      ensures var pass := LabelsLines(lines, prefix, old(Decls()), old(labelAddressPointer));
              && (ok <==> pass.Passed?)
              && (ok ==> Decls() == pass.table && labelAddressPointer == pass.ptr && err == old(err))
              && (!ok ==> err)
      decreases lines, 0
    {
      ghost var t0, p0 := Decls(), labelAddressPointer;
      var i := 0;
      while i < |lines|
        invariant i <= |lines| && Valid() && err == old(err)
        invariant LabelsLines(lines[..i], prefix, t0, p0) == Passed(Decls(), labelAddressPointer)
      {
        LabelsLinesCount(lines[..i], prefix, t0, p0);
        CountLinesStep(lines, i, IsLabelDecl);
        CountLinesPrefix(lines, i + 1, IsLabelDecl);
        assert lines[..i + 1][..i] == lines[..i];
        ok := ResolveLabels(lines[i], prefix);
        if !ok {
          LabelsLinesStop(lines, i + 1, prefix, t0, p0);
          return;
        }
        i := i + 1;
      }
      assert lines[..i] == lines;
      ok := true;
    }

    /** `tasm_resolve_procs`: the table and counter become those of the
        procedures pass, or `err` is set on a duplicate name. */
    method ResolveProcs(n: Ast.Node) returns (ok: bool)
      requires Valid() && procDeclsSize + Count(n, IsProc) <= procDecls.Length
      modifies procDecls, this`procDeclsSize, this`procAddressPointer, this`err
      ensures Valid()
      ensures var pass := ProcsNode(n, old(Procs()), old(procAddressPointer));
              && (ok <==> pass.Passed?)
              && (ok ==> Procs() == pass.table && procAddressPointer == pass.ptr && err == old(err))
              && (!ok ==> err)
      decreases n, 1
    {
      if n.File? {
        ok := ResolveProcsLines(n.lines);
      } else if n.Proc? {
        var found := FindIn(procDecls, procDeclsSize, n.procName);
        if found != -1 {
          err := true;
          return false;
        }
        procDecls[procDeclsSize] := Symbol(n.procName, procAddressPointer);
        procDeclsSize := procDeclsSize + 1;
        assert Procs() == old(Procs()) + [Symbol(n.procName, old(procAddressPointer))];
        ok := ResolveProcsLines(n.procLines);
      } else {
        if Ast.Counted(n) {
          procAddressPointer := procAddressPointer + 1;
        }
        ok := true;
      }
    }

    method ResolveProcsLines(lines: seq<Ast.Node>) returns (ok: bool)
      requires Valid() && procDeclsSize + CountLines(lines, IsProc) <= procDecls.Length
      modifies procDecls, this`procDeclsSize, this`procAddressPointer, this`err
      ensures Valid()
      ensures var pass := ProcsLines(lines, old(Procs()), old(procAddressPointer));
              && (ok <==> pass.Passed?)
              && (ok ==> Procs() == pass.table && procAddressPointer == pass.ptr && err == old(err))
              && (!ok ==> err)
      decreases lines, 0
    {
      ghost var t0, p0 := Procs(), procAddressPointer;
      var i := 0;
      while i < |lines|
        invariant i <= |lines| && Valid() && err == old(err)
        invariant ProcsLines(lines[..i], t0, p0) == Passed(Procs(), procAddressPointer)
      {
        ProcsLinesCount(lines[..i], t0, p0);
        CountLinesStep(lines, i, IsProc);
        CountLinesPrefix(lines, i + 1, IsProc);
        assert lines[..i + 1][..i] == lines[..i];
        ok := ResolveProcs(lines[i]);
        if !ok {
          ProcsLinesStop(lines, i + 1, t0, p0);
          return;
        }
        i := i + 1;
      }
      assert lines[..i] == lines;
      ok := true;
    }

    /** The AST_LABEL_CALL case of `tasm_translate_line`. */
    method RecordCall(name: string, prefix: Option<string>, isCall: bool)
      requires Valid() && labelCallsSize < labelCalls.Length
      modifies labelCalls, this`labelCallsSize, this`err
      ensures Valid()
      ensures Emitted() == ResolveCall(name, prefix, isCall, Decls(), Procs(), old(Emitted()))
    {
      var q := Qualify(prefix, name);
      var addr: int;
      if prefix.None? && isCall {
        addr := ProcDeclAddr(q);
      } else {
        addr := LabelDeclAddr(q);
      }
      if addr == -1 {
        err := true;
        return;
      }
      labelCalls[labelCallsSize] := Symbol(q, addr);
      labelCallsSize := labelCallsSize + 1;
      assert Calls() == old(Calls()) + [Symbol(q, addr)];
    }

    /** The instruction cases of `tasm_translate_line`. A label-call operand
        is translated by the AST_LABEL_CALL case, here `RecordCall`; the jump
        then carries the address its label resolved to. */
    method TranslateInst(op: Ast.VmOp, operand: Option<Ast.Node>, prefix: Option<string>)
      requires Valid() && (Ast.NeedsOperand(op) ==> operand.Some?)
      requires programSize + Indicator(!op.Compare?) <= program.Length
      requires labelCallsSize
               + Indicator(op in {Tvm.Jmp, Tvm.Jz, Tvm.Jnz, Tvm.Call} && operand.Some? && operand.value.LabelCall?)
               <= labelCalls.Length
      modifies labelCalls, program, this`labelCallsSize, this`programSize, this`err
      ensures Valid()
      ensures Emitted() == InstEmit(op, operand, prefix, Decls(), Procs(), old(Emitted()))
    {
      if IsBare(op) {
        ProgramPush(Tvm.BareOp(op));
      } else if !op.Compare? {
        var x := operand.value;
        if op == Tvm.Push {
          if x.Number? {
            ProgramPush(WithOperand(Tvm.Push, x.bits));
          } else if x.Char? {
            ProgramPush(WithOperand(Tvm.Push, FirstCharCode(x.charValue)));
          }
        } else if op == Tvm.Cln || op == Tvm.Swap {
          if x.Number? {
            ProgramPush(WithOperand(op, x.bits));
          }
        } else if op == Tvm.Call {
          if x.LabelCall? {
            TranslateCall(x.callName);
          }
        } else if x.Number? {
          ProgramPush(WithOperand(op, x.bits));
        } else if x.LabelCall? {
          TranslateJump(op, x.callName, prefix);
        }
      }
    }

    /** The OP_CALL case with a label-call operand. */
    method TranslateCall(name: string)
      requires Valid() && programSize < program.Length && labelCallsSize < labelCalls.Length
      modifies labelCalls, program, this`labelCallsSize, this`programSize, this`err
      ensures Valid()
      ensures Emitted() == CallStep(name, Decls(), Procs(), old(Emitted()))
    {
      RecordCall(name, None, true);
      var addr := ProcDeclAddr(name);
      if addr != -1 {
        ProgramPush(WithOperand(Tvm.Call, Wrap(addr)));
      }
    }

    /** The OP_JMP, OP_JZ and OP_JNZ cases with a label-call operand, as
        corrected. */
    method TranslateJump(op: Tvm.OpType, name: string, prefix: Option<string>)
      requires Valid() && programSize < program.Length && labelCallsSize < labelCalls.Length
      modifies labelCalls, program, this`labelCallsSize, this`programSize, this`err
      ensures Valid()
      ensures Emitted() == JumpStep(op, name, prefix, Decls(), Procs(), old(Emitted()))
    {
      RecordCall(name, prefix, false);
      var addr := LabelDeclAddr(Qualify(prefix, name));
      if addr != -1 {
        ProgramPush(WithOperand(op, Wrap(addr)));
      }
    }

    /** `tasm_translate_line`. */
    method TranslateLine(n: Ast.Node, prefix: Option<string>, isCall: bool)
      requires Valid() && Ast.OperandsPresent(n)
      requires programSize + Indicator(Ast.Counted(n)) <= program.Length
      requires labelCallsSize + Indicator(RefersToSymbol(n)) <= labelCalls.Length
      modifies labelCalls, program, this`labelCallsSize, this`programSize, this`err
      ensures Valid()
      ensures Emitted() == LineEmit(n, prefix, isCall, Decls(), Procs(), old(Emitted()))
    {
      if n.Inst? {
        if n.tag.Vm? {
          TranslateInst(n.tag.op, n.operand, prefix);
        }
      } else if n.LabelCall? {
        RecordCall(n.callName, prefix, isCall);
      }
    }

    /** `tasm_translate_proc`: each line under the procedure's name. */
    method TranslateProc(n: Ast.Node)
      requires Valid() && Ast.OperandsPresent(n)
      requires programSize + Count(n, Ast.Counted) <= program.Length
      requires labelCallsSize + Count(n, RefersToSymbol) <= labelCalls.Length
      modifies labelCalls, program, this`labelCallsSize, this`programSize, this`err
      ensures Valid()
      ensures Emitted() == if n.Proc? then LinesEmit(n.procLines, Some(n.procName), Decls(), Procs(), old(Emitted()))
                           else old(Emitted())
    {
      if n.Proc? {
        TranslateLines(n.procLines, Some(n.procName));
      }
    }

    /** The loop of `tasm_translate_proc`. */
    method TranslateLines(lines: seq<Ast.Node>, prefix: Option<string>)
      requires Valid() && Ast.LinesOperandsPresent(lines)
      requires programSize + CountLines(lines, Ast.Counted) <= program.Length
      requires labelCallsSize + CountLines(lines, RefersToSymbol) <= labelCalls.Length
      modifies labelCalls, program, this`labelCallsSize, this`programSize, this`err
      ensures Valid()
      ensures Emitted() == LinesEmit(lines, prefix, Decls(), Procs(), old(Emitted()))
    {
      ghost var e0 := Emitted();
      var i := 0;
      while i < |lines|
        invariant i <= |lines| && Valid()
        invariant Emitted() == LinesEmit(lines[..i], prefix, Decls(), Procs(), e0)
      {
        TranslateLineAt(lines, i, prefix, e0);
        i := i + 1;
      }
      assert lines[..i] == lines;
    }

    /** One turn of the loop of `tasm_translate_proc`. */
    method TranslateLineAt(lines: seq<Ast.Node>, i: nat, prefix: Option<string>, ghost e0: Emit)
      requires Valid() && Ast.LinesOperandsPresent(lines) && i < |lines|
      requires |e0.program| + CountLines(lines, Ast.Counted) <= program.Length
      requires |e0.calls| + CountLines(lines, RefersToSymbol) <= labelCalls.Length
      requires Emitted() == LinesEmit(lines[..i], prefix, Decls(), Procs(), e0)
      modifies labelCalls, program, this`labelCallsSize, this`programSize, this`err
      ensures Valid()
      ensures Emitted() == LinesEmit(lines[..i + 1], prefix, Decls(), Procs(), e0)
    {
      RoomForNext(lines, i, Ast.Counted);
      RoomForNext(lines, i, RefersToSymbol);
      assert lines[..i + 1][..i] == lines[..i];
      TranslateLine(lines[i], prefix, false);
    }

    /** `tasm_translate_proc_and_line`. */
    method TranslateProcAndLine(n: Ast.Node)
      requires Valid() && Ast.OperandsPresent(n)
      requires programSize + Count(n, Ast.Counted) <= program.Length
      requires labelCallsSize + Count(n, RefersToSymbol) <= labelCalls.Length
      modifies labelCalls, program, this`labelCallsSize, this`programSize, this`err
      ensures Valid()
      ensures Emitted() == ProcAndLineEmit(n, Decls(), Procs(), old(Emitted()))
    {
      if n.Proc? {
        TranslateProc(n);
      } else {
        TranslateLine(n, None, false);
      }
    }

    /** `tasm_translate_unit`: the lines of a file, in order. */
    method TranslateUnit(n: Ast.Node)
      requires Valid() && Ast.OperandsPresent(n)
      requires programSize + Count(n, Ast.Counted) <= program.Length
      requires labelCallsSize + Count(n, RefersToSymbol) <= labelCalls.Length
      modifies labelCalls, program, this`labelCallsSize, this`programSize, this`err
      ensures Valid()
      ensures Emitted() == if n.File? then UnitEmit(n.lines, Decls(), Procs(), old(Emitted()))
                           else old(Emitted())
    {
      if n.File? {
        TranslateFileLines(n.lines);
      }
    }

    /** The loop of `tasm_translate_unit`. */
    method TranslateFileLines(lines: seq<Ast.Node>)
      requires Valid() && Ast.LinesOperandsPresent(lines)
      requires programSize + CountLines(lines, Ast.Counted) <= program.Length
      requires labelCallsSize + CountLines(lines, RefersToSymbol) <= labelCalls.Length
      modifies labelCalls, program, this`labelCallsSize, this`programSize, this`err
      ensures Valid()
      ensures Emitted() == UnitEmit(lines, Decls(), Procs(), old(Emitted()))
    {
      ghost var e0 := Emitted();
      var i := 0;
      while i < |lines|
        invariant i <= |lines| && Valid()
        invariant Emitted() == UnitEmit(lines[..i], Decls(), Procs(), e0)
      {
        TranslateFileLineAt(lines, i, e0);
        i := i + 1;
      }
      assert lines[..i] == lines;
    }

    /** One turn of the loop of `tasm_translate_unit`. */
    method TranslateFileLineAt(lines: seq<Ast.Node>, i: nat, ghost e0: Emit)
      requires Valid() && Ast.LinesOperandsPresent(lines) && i < |lines|
      requires |e0.program| + CountLines(lines, Ast.Counted) <= program.Length
      requires |e0.calls| + CountLines(lines, RefersToSymbol) <= labelCalls.Length
      requires Emitted() == UnitEmit(lines[..i], Decls(), Procs(), e0)
      modifies labelCalls, program, this`labelCallsSize, this`programSize, this`err
      ensures Valid()
      ensures Emitted() == UnitEmit(lines[..i + 1], Decls(), Procs(), e0)
    {
      RoomForNext(lines, i, Ast.Counted);
      RoomForNext(lines, i, RefersToSymbol);
      assert lines[..i + 1][..i] == lines[..i];
      TranslateProcAndLine(lines[i]);
    }
  }
}
