/** The recursive-descent parser of include/tasm/tasm_parser.h.

    The parser keeps a window of three tokens (previous, current, next) over
    the tokens its lexer hands out. Here the lexer is the sequence `input`
    of the tokens it yields, after which it yields EOF forever (get_next_token
    stays on the EOF byte). `pos` counts the tokens taken from it so far.

    The C parser never reports an error to its caller: an unexpected token
    ends the process (`exit(-1)` in eat), a line that consumes nothing is
    parsed again forever, and the JZ token leaves the node's tag
    uninitialised. Each of these is a `Failure` of the parse. */
module TasmParser {
  import opened Wrappers
  import opened Words
  import opened TasmToken
  import Ast = TasmAst
  import Tvm

  /** The i-th token the lexer hands out. */
  function TokenAt(input: seq<Token>, i: nat): Token {
    if i < |input| then input[i] else EOF_TOKEN
  }

  /** Why a parse does not return: `Fatal` is the exit in eat, `Spins` a loop
      whose body consumes nothing (and so repeats forever on the same state),
      `Undefined` the read of an uninitialised tag. */
  datatype Failure = Fatal | Spins | Undefined

  datatype Outcome<T> = Ok(value: T) | Fail(failure: Failure)

  /** A snapshot of the parser's fields. */
  datatype Window = Window(pos: nat, prev: Token, current: Token, next: Token, procName: Option<string>)

  /** The window after `pos` tokens have been taken from the lexer: `next` is
      the last of them, `current` and `prev` the two before it (TOKEN_NONE
      before the start). */
  function At(input: seq<Token>, pos: nat, procName: Option<string>): (w: Window)
    requires pos >= 1
    ensures w.pos == pos && w.procName == procName
  {
    Window(pos, if pos >= 3 then TokenAt(input, pos - 3) else NO_TOKEN,
           if pos >= 2 then TokenAt(input, pos - 2) else NO_TOKEN,
           TokenAt(input, pos - 1), procName)
  }

  /** The window sits on the token stream. */
  predicate Placed(input: seq<Token>, w: Window) {
    w.pos >= 1 && w == At(input, w.pos, w.procName)
  }

  /** The window `tasm_parser_init` sets up: nothing taken but the first token. */
  function Start(input: seq<Token>): (w: Window)
    ensures Placed(input, w) && w.current == NO_TOKEN && w.procName.None?
  {
    At(input, 1, None)
  }

  /** The window after a successful eat. */
  function Shift(input: seq<Token>, w: Window): (v: Window)
    ensures Placed(input, w) ==> v == At(input, w.pos + 1, w.procName)
  {
    Window(w.pos + 1, w.current, w.next, TokenAt(input, w.pos), w.procName)
  }

  /** `v` is a later window on the same stream, inside the same procedure. */
  predicate Later(input: seq<Token>, w: Window, v: Window) {
    Placed(input, v) && v.procName == w.procName && w.pos <= v.pos
  }

  /** Past the end of the stream the current token is EOF. */
  lemma NotAtEnd(input: seq<Token>, w: Window)
    requires Placed(input, w) && w.current.kind != Eof
    ensures w.pos < |input| + 2
  {
  }

  /** How many more tokens the lexer can hand out before its stream is EOF
      only; the measure of the two parse loops. */
  function Left(input: seq<Token>, w: Window): nat {
    if w.pos < |input| + 2 then |input| + 2 - w.pos else 0
  }

  // ---------------------------------------------------------------------------
  // The end of a line

  /** The three optional eats at the end of tasm_parse_line and
      tasm_parse_proc_line: an ENDLINE, then a COMMENT, then an EOF. */
  function Separators(input: seq<Token>, w: Window): (v: Window)
    ensures w.pos <= v.pos <= w.pos + 3
    ensures v.pos == w.pos <==> w.current.kind !in {EndLine, Comment, Eof}
    ensures v.pos == w.pos ==> v == w
    ensures Placed(input, w) ==> Later(input, w, v)
  {
    var w1 := if w.current.kind == EndLine then Shift(input, w) else w;
    var w2 := if w1.current.kind == Comment then Shift(input, w1) else w1;
    if w2.current.kind == Eof then Shift(input, w2) else w2
  }

  /** The end of an instruction or a procedure: an optional COMMENT, then EOF
      or else an ENDLINE, whose absence is fatal. */
  function EndOfLine(input: seq<Token>, w: Window): (r: Option<Window>)
    ensures r.Some? <==> (if w.current.kind == Comment then w.next else w.current).kind in {Eof, EndLine}
    ensures Placed(input, w) && r.Some? ==> Later(input, w, r.value) && w.pos < r.value.pos
    ensures r.Some? ==> r.value.prev.kind in {Eof, EndLine}
  {
    var w1 := if w.current.kind == Comment then Shift(input, w) else w;
    if w1.current.kind == Eof || w1.current.kind == EndLine then Some(Shift(input, w1))
    else None
  }

  // ---------------------------------------------------------------------------
  // Literals

  /** `isspace` in the C locale. */
  predicate IsSpace(c: char) {
    c == ' ' || c == '\t' || c == '\n' || c == '\r' || c == 11 as char || c == 12 as char
  }

  predicate IsDecimal(c: char) { '0' <= c <= '9' }

  /** The length of the white space that starts `s`: every character before
      `n` is white space and the one at `n`, if any, is not. */
  function SpaceRun(s: string): (n: nat)
    ensures n <= |s|
    ensures forall i | 0 <= i < n :: IsSpace(s[i])
    ensures n < |s| ==> !IsSpace(s[n])
  {
    if s != [] && IsSpace(s[0]) then 1 + SpaceRun(s[1..]) else 0
  }

  /** The length of the decimal digits that start `s`: every character before
      `n` is a digit and the one at `n`, if any, is not. */
  function DigitRun(s: string): (n: nat)
    ensures n <= |s|
    ensures forall i | 0 <= i < n :: IsDecimal(s[i])
    ensures n < |s| ==> !IsDecimal(s[n])
  {
    if s != [] && IsDecimal(s[0]) then 1 + DigitRun(s[1..]) else 0
  }

  /** The number a string of decimal digits denotes. */
  function DecimalValue(d: string): (v: int)
    ensures (forall i | 0 <= i < |d| :: IsDecimal(d[i])) ==> v >= 0
  {
    if d == [] then 0
    else 10 * DecimalValue(d[..|d| - 1]) + (d[|d| - 1] as int - '0' as int)
  }

  /** `atoi`: leading white space, an optional sign, then as many decimal
      digits as follow. Its value on a number outside the range of `int` is
      undefined in C; this is the mathematical value. */
  function Atoi(s: string): (v: int)
    ensures v < 0 ==> SpaceRun(s) < |s| && s[SpaceRun(s)] == '-'
    ensures SpaceRun(s) == |s| ==> v == 0
  {
    var t := s[SpaceRun(s)..];
    var signed := |t| > 0 && (t[0] == '-' || t[0] == '+');
    var u := if signed then t[1..] else t;
    var v: int := DecimalValue(u[..DigitRun(u)]);
    if signed && t[0] == '-' then -v else v
  }

  /** The shortest decimal spelling of `n`: the reference for `Atoi`. */
  function Numeral(n: nat): (d: string)
    ensures |d| > 0 && forall i | 0 <= i < |d| :: IsDecimal(d[i])
  {
    var c := (n % 10 + '0' as int) as char;
    if n < 10 then [c] else Numeral(n / 10) + [c]
  }

  lemma {:induction false} DecimalValueOfNumeral(n: nat)
    ensures DecimalValue(Numeral(n)) == n
  {
    if n >= 10 {
      DecimalValueOfNumeral(n / 10);
      var d := Numeral(n);
      assert d[..|d| - 1] == Numeral(n / 10);
    }
  }

  /** A digit string reads back as the value it spells. */
  lemma {:induction false} AtoiOfDigits(d: string)
    requires |d| > 0 && forall i | 0 <= i < |d| :: IsDecimal(d[i])
    ensures Atoi(d) == DecimalValue(d)
  {
    assert d[0..] == d;
    RunOfDigits(d);
    assert d[..|d|] == d;
  }

  lemma {:induction false} RunOfDigits(d: string)
    requires forall i | 0 <= i < |d| :: IsDecimal(d[i])
    ensures DigitRun(d) == |d|
    ensures |d| > 0 ==> SpaceRun(d) == 0
    decreases |d|
  {
    if d != [] {
      RunOfDigits(d[1..]);
    }
  }

  /** `atoi` inverts the decimal spelling, with or without a minus sign. */
  lemma AtoiOfNumeral(n: nat)
    ensures Atoi(Numeral(n)) == n
    ensures Atoi("-" + Numeral(n)) == -(n as int)
  {
    var d := Numeral(n);
    AtoiOfDigits(d);
    DecimalValueOfNumeral(n);
    var s := "-" + d;
    assert SpaceRun(s) == 0;
    assert s[0..][1..] == d;
    RunOfDigits(d);
    assert d[..|d|] == d;
  }

  /** The AST_NUMBER node tasm_parse_num_lit builds: the token's text and,
      in the 32-bit field, what `atoi` makes of it. */
  function NumberLiteral(text: string): (n: Ast.Node)
    ensures n.Number? && n.textValue == text
    ensures forall m: nat | text == Numeral(m) :: n.bits == Wrap(m)
  {
    forall m: nat | text == Numeral(m) ensures Atoi(text) == m {
      AtoiOfNumeral(m);
    }
    Ast.Number(text, Wrap(Atoi(text)))
  }

  // ---------------------------------------------------------------------------
  // Instructions

  /** The tag the switch of tasm_parse_instruction gives the k-th instruction
      token. The JZ token (19) has no case, so its tag is never set. */
  function InstructionTag(k: OpIndex): (tag: Option<Ast.InstTag>)
    ensures tag.None? <==> k == 19
    ensures tag.Some? ==> tag.value.Vm? && !tag.value.op.Compare?
    ensures tag.Some? && k < 29 ==> Tvm.Ordinal(tag.value.op) == k
    ensures tag.Some? && k == 29 ==> tag.value.op == Tvm.Halt
  {
    if k == 19 then None
    else if k == 29 then Some(Ast.Vm(Tvm.Halt))
    else
      Tvm.OrdinalOfOpTypeOf(k);
      Some(Ast.Vm(Tvm.OpTypeOf(k)))
  }

  /** Which of the operand parsers an instruction calls. */
  datatype OperandForm = NoOperand | NumberOperand | PushOperand | JumpOperand | LabelOperand

  function FormOf(op: Ast.VmOp): OperandForm {
    match op
    case Push => PushOperand
    case Cln => NumberOperand
    case Swap => NumberOperand
    case Jmp => JumpOperand
    case Jnz => JumpOperand
    case Call => LabelOperand
    case _ => NoOperand
  }

  /** The form for the k-th instruction token (JZ reads no operand). */
  function TokenForm(k: OpIndex): OperandForm {
    match InstructionTag(k)
    case None => NoOperand
    case Some(tag) => FormOf(tag.op)
  }

  /** The token kinds that start an operand of the given form. */
  predicate CanStart(form: OperandForm, kind: TokenKind) {
    match form
    case NoOperand => false
    case NumberOperand => kind == Number
    case PushOperand => kind == Number || kind == Apost
    case JumpOperand => kind == Number || kind == Id
    case LabelOperand => kind == Id
  }

  /** The operand nodes an instruction of the given form may carry. */
  predicate Fits(form: OperandForm, operand: Option<Ast.Node>) {
    match form
    case NoOperand => operand.None?
    case NumberOperand => operand.Some? && operand.value.Number?
    case PushOperand => operand.Some? && (operand.value.Number? || operand.value.Char?)
    case JumpOperand => operand.Some? && (operand.value.Number? || operand.value.LabelCall?)
    case LabelOperand => operand.Some? && operand.value.LabelCall?
  }

  /** The operand node read from the token `t` (and the token `u` after it,
      for a character literal `' u '`). */
  function OperandFrom(t: Token, u: Token): Ast.Node {
    if t.kind == Number then NumberLiteral(t.value)
    else if t.kind == Apost then Ast.Char(u.value)
    else Ast.LabelCall(t.value)
  }

  /** Inside a procedure a label-call operand is renamed to the procedure's
      name followed directly by the label's, with no separator. */
  function Renamed(procName: Option<string>, n: Ast.Node): (r: Ast.Node)
    ensures r.LabelCall? <==> n.LabelCall?
    ensures procName.None? || !n.LabelCall? ==> r == n
    ensures procName.Some? && n.LabelCall? ==>
              |r.callName| == |procName.value| + |n.callName|
              && r.callName[..|procName.value|] == procName.value
              && r.callName[|procName.value|..] == n.callName
  {
    if procName.Some? && n.LabelCall? then Ast.LabelCall(procName.value + n.callName) else n
  }

  /** An instruction line as tasm_parse_instruction builds it. */
  predicate InstLine(n: Ast.Node) {
    && n.Inst?
    && n.tag.Vm?
    && !n.tag.op.Compare?
    && n.tag.op != Tvm.Jz
    && Fits(FormOf(n.tag.op), n.operand)
  }

  /** A line of a procedure body. */
  predicate ProcLine(n: Ast.Node) {
    n.LabelDecl? || InstLine(n)
  }

  /** A label-call operand of `n`, if any, starts with `prefix`. */
  predicate CallsUnder(prefix: string, n: Ast.Node) {
    n.Inst? && n.operand.Some? && n.operand.value.LabelCall? ==> prefix <= n.operand.value.callName
  }

  /** A line of a file. */
  predicate TopLine(n: Ast.Node) {
    || ProcLine(n)
    || (n.Proc? && forall i | 0 <= i < |n.procLines| ::
          ProcLine(n.procLines[i]) && CallsUnder(n.procName, n.procLines[i]))
  }

  /** Every instruction the parser builds has the operand the translator reads. */
  lemma TopLineHasOperands(n: Ast.Node)
    requires TopLine(n)
    ensures Ast.OperandsPresent(n)
  {
    if n.Proc? {
      forall i | 0 <= i < |n.procLines| ensures Ast.OperandsPresent(n.procLines[i]) {
        assert ProcLine(n.procLines[i]);
      }
    }
  }

  lemma FileHasOperands(lines: seq<Ast.Node>)
    requires forall i | 0 <= i < |lines| :: TopLine(lines[i])
    ensures Ast.OperandsPresent(Ast.File(lines))
  {
    forall i | 0 <= i < |lines| ensures Ast.OperandsPresent(lines[i]) {
      TopLineHasOperands(lines[i]);
    }
  }

  // ---------------------------------------------------------------------------
  // The parse, as functions of the window

  /** What a parse gives: the node (or its absence) and the window it leaves,
      or why it does not return. */
  type Parse<T> = Outcome<(T, Window)>

  /** What a parse hands back to its caller. */
  function Returned<T>(p: Parse<T>): Outcome<T> {
    match p
    case Ok(v) => Ok(v.0)
    case Fail(f) => Fail(f)
  }

  /** tasm_parse_number_operand, tasm_parse_push_operand,
      tasm_parse_jmp_operand and tasm_parse_label_operand, with the literal
      parsers they call. */
  function OperandSpec(input: seq<Token>, form: OperandForm, w: Window): (r: Parse<Option<Ast.Node>>)
    requires Placed(input, w) && form != NoOperand
    ensures r.Ok? ==> Later(input, w, r.value.1)
    ensures !CanStart(form, w.current.kind) ==> r == Ok((None, w))
    ensures r.Ok? && r.value.0.Some? ==> r.value.0.value == OperandFrom(w.current, w.next)
    ensures CanStart(form, w.current.kind) && r.Ok? ==> r.value.0.Some?
    ensures r.Fail? ==> r.failure == Fatal && w.current.kind == Apost
  {
    if !CanStart(form, w.current.kind) then Ok((None, w))
    else if w.current.kind == Apost && !(w.next.kind == Id && TokenAt(input, w.pos).kind == Apost) then
      Fail(Fatal)
    else
      // a number or a label is one token; a character is three: ' c '
      var v := if w.current.kind == Apost then At(input, w.pos + 3, w.procName) else Shift(input, w);
      Ok((Some(OperandFrom(w.current, w.next)), v))
  }

  /** The operand part of tasm_parse_instruction for an instruction of the
      given form: a missing operand is fatal, and inside a procedure a label
      call is renamed. */
  function InstOperandSpec(input: seq<Token>, form: OperandForm, w: Window): (r: Parse<Option<Ast.Node>>)
    requires Placed(input, w)
    ensures r.Ok? ==> Later(input, w, r.value.1) && Fits(form, r.value.0)
    ensures r.Ok? && r.value.0.Some? ==>
              r.value.0.value == Renamed(w.procName, OperandFrom(w.current, w.next))
    ensures form != NoOperand && !CanStart(form, w.current.kind) ==> r == Fail(Fatal)
    ensures r.Fail? ==> r.failure == Fatal
  {
    if form == NoOperand then Ok((None, w))
    else
      match OperandSpec(input, form, w)
      case Ok((Some(x), v)) => Ok((Some(Renamed(w.procName, x)), v))
      case _ => Fail(Fatal)
  }

  /** `tasm_parse_instruction`: the instruction token, its operand, the end of
      the line, and then the node, which reads the tag. */
  function InstSpec(input: seq<Token>, w: Window): (r: Parse<Ast.Node>)
    requires Placed(input, w) && w.current.kind.Op?
    ensures r.Ok? ==> Later(input, w, r.value.1) && w.pos < r.value.1.pos
    ensures r.Ok? ==> InstLine(r.value.0) && r.value.0.name == w.current.value
                      && Some(r.value.0.tag) == InstructionTag(w.current.kind.index)
    ensures r.Ok? && w.procName.Some? ==> CallsUnder(w.procName.value, r.value.0)
    ensures w.current.kind.index == 19 ==> r.Fail?
    ensures r.Fail? && r.failure != Fatal ==> r.failure == Undefined && w.current.kind.index == 19
    ensures r.Ok? ==> r.value.1.prev.kind in {Eof, EndLine}
  {
    var k := w.current.kind.index;
    match InstOperandSpec(input, TokenForm(k), Shift(input, w))
    case Fail(_) => Fail(Fatal)
    case Ok((operand, v)) =>
      match EndOfLine(input, v)
      case None => Fail(Fatal)
      case Some(u) =>
        match InstructionTag(k)
        case None => Fail(Undefined)
        case Some(tag) => Ok((Ast.Inst(tag, w.current.value, operand), u))
  }

  /** A line of the body of the procedure `name`. */
  predicate BodyLine(name: string, n: Ast.Node) {
    ProcLine(n) && CallsUnder(name, n)
  }

  /** `tasm_parse_proc_line`: a label declaration, else an instruction; a
      nested PROC and a stray ID are fatal; otherwise the separators are
      skipped and there is no line. */
  function ProcLineSpec(input: seq<Token>, w: Window): (r: Parse<Option<Ast.Node>>)
    requires Placed(input, w)
    ensures r.Ok? ==> Later(input, w, r.value.1)
    ensures r.Ok? && r.value.1.pos == w.pos ==> r.value.0.None? && r.value.1 == w
    ensures r.Ok? && r.value.0.Some? ==> ProcLine(r.value.0.value)
    ensures r.Ok? && r.value.0.Some? && w.procName.Some? ==> BodyLine(w.procName.value, r.value.0.value)
    ensures w.current.kind == ProcWord ==> r == Fail(Fatal)
    ensures w.current.kind == Id && w.next.kind != Colon ==> r == Fail(Fatal)
    ensures r.Ok? && r.value.0.None? ==> r.value.1 == Separators(input, w)
  {
    if w.current.kind == Id && w.next.kind == Colon then
      Ok((Some(Ast.LabelDecl(w.current.value)), Shift(input, Shift(input, w))))
    else if w.current.kind.Op? then
      match InstSpec(input, w)
      case Ok((n, v)) => Ok((Some(n), v))
      case Fail(f) => Fail(f)
    else if w.current.kind == ProcWord || w.current.kind == Id then Fail(Fatal)
    else Ok((None, Separators(input, w)))
  }

  /** The loop of `tasm_parse_proc` from the window `w`, with the lines `acc`
      collected so far: body lines up to ENDP. */
  function ProcBodySpec(input: seq<Token>, w: Window, acc: seq<Ast.Node>): (r: Parse<seq<Ast.Node>>)
    requires Placed(input, w) && w.procName.Some?
    ensures r.Ok? ==> Later(input, w, r.value.1) && r.value.1.current.kind == EndpWord
    decreases Left(input, w), 1
  {
    if w.current.kind == EndpWord then Ok((acc, w)) else BodyTurnSpec(input, w, acc)
  }

  /** One turn of that loop and the turns after it: a line is read, where
      reaching EOF is fatal and a line that consumes nothing repeats forever. */
  function BodyTurnSpec(input: seq<Token>, w: Window, acc: seq<Ast.Node>): (r: Parse<seq<Ast.Node>>)
    requires Placed(input, w) && w.procName.Some?
    ensures r.Ok? ==> Later(input, w, r.value.1) && r.value.1.current.kind == EndpWord
    decreases Left(input, w), 0
  {
    match ProcLineSpec(input, w)
    case Fail(f) => Fail(f)
    case Ok((line, v)) =>
      if v.current.kind == Eof then Fail(Fatal)
      else if v.pos == w.pos then Fail(Spins)
      else
        NotAtEnd(input, v);
        ProcBodySpec(input, v, if line.Some? then acc + [line.value] else acc)
  }

  /** The body loop keeps the lines it has and adds only body lines. */
  lemma {:induction false} ProcBodyLines(input: seq<Token>, w: Window, acc: seq<Ast.Node>)
    requires Placed(input, w) && w.procName.Some?
    ensures var r := ProcBodySpec(input, w, acc);
            r.Ok? ==> acc <= r.value.0 && forall i | |acc| <= i < |r.value.0| :: BodyLine(w.procName.value, r.value.0[i])
    decreases Left(input, w)
  {
    if w.current.kind != EndpWord {
      match ProcLineSpec(input, w)
      case Fail(_) =>
      case Ok((line, v)) =>
        if v.current.kind != Eof && v.pos != w.pos {
          NotAtEnd(input, v);
          ProcBodyLines(input, v, if line.Some? then acc + [line.value] else acc);
        }
    }
  }

  /** `tasm_parse_proc`: PROC, its name, the body, ENDP and the end of the
      line; the name is current while the body is parsed and cleared after. */
  function ProcSpec(input: seq<Token>, w: Window): (r: Parse<Ast.Node>)
    requires Placed(input, w) && w.current.kind == ProcWord
    ensures r.Ok? ==> Placed(input, r.value.1) && r.value.1.procName.None? && w.pos < r.value.1.pos
    ensures w.next.kind != Id ==> r == Fail(Fatal)
    ensures r.Ok? ==> TopLine(r.value.0) && r.value.0.Proc? && r.value.0.procName == w.next.value
    ensures r.Ok? ==> r.value.1.prev.kind in {Eof, EndLine}
  {
    var w1 := Shift(input, w);
    var name := w1.current.value;
    if w1.current.kind != Id then Fail(Fatal)
    else
      var wb := Shift(input, w1.(procName := Some(name)));
      ProcBodyLines(input, wb, []);
      match ProcBodySpec(input, wb, [])
      case Fail(f) => Fail(f)
      case Ok((lines, v)) =>
        match EndOfLine(input, Shift(input, v).(procName := None))
        case None => Fail(Fatal)
        case Some(u) => Ok((Ast.Proc(name, lines), u))
  }

  /** `tasm_parse_line`: a label declaration, then a procedure, then an
      instruction, in that order; a stray ID is fatal; otherwise the
      separators are skipped and there is no line. */
  function LineSpec(input: seq<Token>, w: Window): (r: Parse<Option<Ast.Node>>)
    requires Placed(input, w)
    ensures r.Ok? ==> Placed(input, r.value.1) && w.pos <= r.value.1.pos
    ensures r.Ok? && w.procName.None? ==> r.value.1.procName.None?
    ensures r.Ok? && r.value.1.pos == w.pos ==> r.value.0.None? && r.value.1 == w
    ensures r.Ok? && r.value.0.Some? ==> TopLine(r.value.0.value)
    ensures w.current.kind == Id && w.next.kind == Colon ==>
              r == Ok((Some(Ast.LabelDecl(w.current.value)), Shift(input, Shift(input, w))))
    ensures w.current.kind == Id && w.next.kind != Colon ==> r == Fail(Fatal)
    ensures w.current.kind == ProcWord && r.Ok? ==> r.value.0.Some? && r.value.0.value.Proc?
    ensures w.current.kind.Op? && r.Ok? ==> r.value.0.Some? && r.value.0.value.Inst?
    ensures r.Ok? && r.value.0.None? ==> r.value.1 == Separators(input, w)
  {
    if w.current.kind == Id && w.next.kind == Colon then
      Ok((Some(Ast.LabelDecl(w.current.value)), Shift(input, Shift(input, w))))
    else if w.current.kind == ProcWord then
      match ProcSpec(input, w)
      case Ok((n, v)) => Ok((Some(n), v))
      case Fail(f) => Fail(f)
    else if w.current.kind.Op? then
      match InstSpec(input, w)
      case Ok((n, v)) => Ok((Some(n), v))
      case Fail(f) => Fail(f)
    else if w.current.kind == Id then Fail(Fatal)
    else Ok((None, Separators(input, w)))
  }

  /** The loop of `tasm_parse_file` from the window `w`, with the lines `acc`
      collected so far: the lines that are not NULL, until the current token
      is EOF; a line that consumes nothing repeats forever. */
  function FileLinesSpec(input: seq<Token>, w: Window, acc: seq<Ast.Node>): (r: Parse<seq<Ast.Node>>)
    requires Placed(input, w)
    ensures r.Ok? ==> Placed(input, r.value.1) && r.value.1.current.kind == Eof
    ensures r.Ok? && w.procName.None? ==> r.value.1.procName.None?
    decreases Left(input, w), 1
  {
    if w.current.kind == Eof then Ok((acc, w)) else FileTurnSpec(input, w, acc)
  }

  /** One turn of that loop and the turns after it: a line is read, and a
      line that consumes nothing repeats forever. */
  function FileTurnSpec(input: seq<Token>, w: Window, acc: seq<Ast.Node>): (r: Parse<seq<Ast.Node>>)
    requires Placed(input, w) && w.current.kind != Eof
    ensures r.Ok? ==> Placed(input, r.value.1) && r.value.1.current.kind == Eof
    ensures r.Ok? && w.procName.None? ==> r.value.1.procName.None?
    decreases Left(input, w), 0
  {
    match LineSpec(input, w)
    case Fail(f) => Fail(f)
    case Ok((line, v)) =>
      if v.pos == w.pos then Fail(Spins)
      else
        NotAtEnd(input, w);
        FileLinesSpec(input, v, if line.Some? then acc + [line.value] else acc)
  }

  /** The file loop keeps the lines it has and adds only file lines. */
  lemma {:induction false} FileLinesTop(input: seq<Token>, w: Window, acc: seq<Ast.Node>)
    requires Placed(input, w)
    ensures var r := FileLinesSpec(input, w, acc);
            r.Ok? ==> acc <= r.value.0 && forall i | |acc| <= i < |r.value.0| :: TopLine(r.value.0[i])
    decreases Left(input, w)
  {
    if w.current.kind != Eof {
      match LineSpec(input, w)
      case Fail(_) =>
      case Ok((line, v)) =>
        if v.pos != w.pos {
          NotAtEnd(input, w);
          FileLinesTop(input, v, if line.Some? then acc + [line.value] else acc);
        }
    }
  }

  /** `tasm_parse_file`: eat the initial TOKEN_NONE, then the lines. */
  function FileSpec(input: seq<Token>, w: Window): (r: Parse<Ast.Node>)
    requires Placed(input, w)
    ensures w.current.kind != NoToken ==> r == Fail(Fatal)
    ensures r.Ok? ==> r.value.0.File? && Ast.OperandsPresent(r.value.0)
    ensures r.Ok? ==> forall i | 0 <= i < |r.value.0.lines| :: TopLine(r.value.0.lines[i])
    ensures r.Ok? ==> Placed(input, r.value.1) && r.value.1.current.kind == Eof
    ensures r.Ok? && w.procName.None? ==> r.value.1.procName.None?
  {
    if w.current.kind != NoToken then Fail(Fatal)
    else
      FileLinesTop(input, Shift(input, w), []);
      match FileLinesSpec(input, Shift(input, w), [])
      case Fail(f) => Fail(f)
      case Ok((lines, v)) =>
        FileHasOperands(lines);
        Ok((Ast.File(lines), v))
  }

  // ---------------------------------------------------------------------------
  // Reading back: the tokens of a well-formed program parse to that program

  const ENDLINE_TOKEN: Token := Token(EndLine, "endl")
  const COLON_TOKEN: Token := Token(Colon, ":")
  const APOST_TOKEN: Token := Token(Apost, "'")
  const PROC_TOKEN: Token := Token(ProcWord, "proc")
  const ENDP_TOKEN: Token := Token(EndpWord, "endp")

  /** The instruction token whose case of the switch gives `op`. */
  function TokenIndex(op: Ast.VmOp): (k: OpIndex)
    requires !op.Compare? && op != Tvm.Jz
    ensures InstructionTag(k) == Some(Ast.Vm(op)) && TokenForm(k) == FormOf(op)
  {
    if op == Tvm.Halt then 29
    else
      Tvm.OpTypeOfOrdinal(op);
      Tvm.Ordinal(op)
  }

  /** The tokens of an operand, written inside the procedure `procName`
      (whose prefix a label call then drops). */
  function OperandTokens(procName: Option<string>, x: Ast.Node): seq<Token> {
    if x.Number? then [Token(Number, x.textValue)]
    else if x.Char? then [APOST_TOKEN, Token(Id, x.charValue), APOST_TOKEN]
    else if x.LabelCall? then
      var c := x.callName;
      [Token(Id, if procName.Some? && procName.value <= c then c[|procName.value|..] else c)]
    else []
  }

  /** The tokens of a line: `name:`, an instruction with its operand and an
      ENDLINE, or PROC name ENDLINE, the body, ENDP ENDLINE. */
  function LineTokens(procName: Option<string>, n: Ast.Node): seq<Token>
    decreases n
  {
    if n.LabelDecl? then [Token(Id, n.declName), COLON_TOKEN]
    else if InstLine(n) then
      [Token(Op(TokenIndex(n.tag.op)), n.name)]
        + (if n.operand.Some? then OperandTokens(procName, n.operand.value) else [])
        + [ENDLINE_TOKEN]
    else if n.Proc? then
      [PROC_TOKEN, Token(Id, n.procName), ENDLINE_TOKEN]
        + LinesTokens(Some(n.procName), n.procLines) + [ENDP_TOKEN, ENDLINE_TOKEN]
    else []
  }

  function LinesTokens(procName: Option<string>, lines: seq<Ast.Node>): seq<Token>
    decreases lines
  {
    if lines == [] then [] else LineTokens(procName, lines[0]) + LinesTokens(procName, lines[1..])
  }

  /** An operand that its tokens give back: a number node carries what
      tasm_parse_num_lit makes of its text, and inside a procedure a label
      call carries the procedure's prefix. */
  predicate OperandReadable(procName: Option<string>, x: Ast.Node) {
    && (x.Number? ==> x == NumberLiteral(x.textValue))
    && (x.LabelCall? && procName.Some? ==> procName.value <= x.callName)
  }

  /** A line that its tokens give back inside `procName`. */
  predicate Readable(procName: Option<string>, n: Ast.Node) {
    || n.LabelDecl?
    || (InstLine(n) && (n.operand.Some? ==> OperandReadable(procName, n.operand.value)))
  }

  /** A line of a file that its tokens give back. */
  predicate TopReadable(n: Ast.Node) {
    || Readable(None, n)
    || (n.Proc? && forall i | 0 <= i < |n.procLines| :: Readable(Some(n.procName), n.procLines[i]))
  }

  /** The lexer hands out `toks` from its q-th token on. */
  predicate Reads(input: seq<Token>, q: nat, toks: seq<Token>) {
    forall i | 0 <= i < |toks| :: TokenAt(input, q + i) == toks[i]
  }

  lemma ReadsAt(input: seq<Token>, q: nat, toks: seq<Token>, i: nat)
    requires Reads(input, q, toks) && i < |toks|
    ensures TokenAt(input, q + i) == toks[i]
  {
  }

  lemma ReadsSplit(input: seq<Token>, q: nat, a: seq<Token>, b: seq<Token>)
    requires Reads(input, q, a + b)
    ensures Reads(input, q, a) && Reads(input, q + |a|, b)
  {
    forall i | 0 <= i < |a| ensures TokenAt(input, q + i) == a[i] {
      assert (a + b)[i] == a[i];
    }
    forall i | 0 <= i < |b| ensures TokenAt(input, q + |a| + i) == b[i] {
      var j := |a| + i;
      assert (a + b)[j] == b[i];
      assert q + j == q + |a| + i;
    }
  }

  /** The lexer hands out what is left of its stream. */
  lemma ReadsRest(input: seq<Token>, q: nat)
    requires q <= |input|
    ensures Reads(input, q, input[q..])
  {
  }

  /** The window whose current token is the one at index `q`. */
  function Here(input: seq<Token>, q: nat, procName: Option<string>): (w: Window)
    ensures Placed(input, w) && w.procName == procName
    ensures w.current == TokenAt(input, q) && w.next == TokenAt(input, q + 1)
  {
    At(input, q + 2, procName)
  }

  lemma ShiftHere(input: seq<Token>, q: nat, procName: Option<string>)
    ensures Shift(input, Here(input, q, procName)) == Here(input, q + 1, procName)
  {
  }

  /** The tokens of an instruction's operand, if it has one. */
  function OperandPart(procName: Option<string>, operand: Option<Ast.Node>): seq<Token> {
    if operand.Some? then OperandTokens(procName, operand.value) else []
  }

  /** A character operand `' c '` read at `q`. */
  lemma CharOperandParses(input: seq<Token>, q: nat, procName: Option<string>, form: OperandForm, x: Ast.Node)
    requires x.Char? && Fits(form, Some(x)) == true
    requires TokenAt(input, q) == APOST_TOKEN && TokenAt(input, q + 1) == Token(Id, x.charValue)
    requires TokenAt(input, q + 2) == APOST_TOKEN
    ensures InstOperandSpec(input, form, Here(input, q, procName)) == Ok((Some(x), Here(input, q + 3, procName)))
  {
    assert OperandSpec(input, form, Here(input, q, procName)) == Ok((Some(x), Here(input, q + 3, procName)));
  }

  /** A number or label-call operand, one token, read at `q`. */
  lemma WordOperandParses(input: seq<Token>, q: nat, procName: Option<string>, form: OperandForm, x: Ast.Node)
    requires (x.Number? || x.LabelCall?) && Fits(form, Some(x)) == true && OperandReadable(procName, x) == true
    requires TokenAt(input, q) == OperandTokens(procName, x)[0]
    ensures InstOperandSpec(input, form, Here(input, q, procName)) == Ok((Some(x), Here(input, q + 1, procName)))
  {
    var w := Here(input, q, procName);
    ShiftHere(input, q, procName);
    if x.LabelCall? && procName.Some? {
      assert procName.value + w.current.value == x.callName;
    }
    assert Renamed(procName, OperandFrom(w.current, w.next)) == x;
    assert OperandSpec(input, form, w) == Ok((Some(OperandFrom(w.current, w.next)), Here(input, q + 1, procName)));
  }

  /** An operand that fits the form and that its tokens give back, read
      from those tokens at `q`. */
  lemma OperandParses(input: seq<Token>, q: nat, procName: Option<string>, form: OperandForm,
                      operand: Option<Ast.Node>)
    requires Fits(form, operand) == true
    requires operand.Some? ==> OperandReadable(procName, operand.value) == true
    requires Reads(input, q, OperandPart(procName, operand))
    ensures InstOperandSpec(input, form, Here(input, q, procName))
              == Ok((operand, Here(input, q + |OperandPart(procName, operand)|, procName)))
  {
    if operand.Some? {
      var x := operand.value;
      var ot := OperandTokens(procName, x);
      ReadsAt(input, q, ot, 0);
      if x.Char? {
        ReadsAt(input, q, ot, 1);
        ReadsAt(input, q, ot, 2);
        CharOperandParses(input, q, procName, form, x);
      } else {
        WordOperandParses(input, q, procName, form, x);
      }
    }
  }

  /** The tokens of an instruction line: the instruction, the operand's and
      an ENDLINE. */
  lemma InstTokens(input: seq<Token>, q: nat, procName: Option<string>, n: Ast.Node)
    requires InstLine(n) == true && Reads(input, q, LineTokens(procName, n)) == true
    ensures var mid := OperandPart(procName, n.operand);
            && TokenAt(input, q) == Token(Op(TokenIndex(n.tag.op)), n.name)
            && Reads(input, q + 1, mid)
            && TokenAt(input, q + 1 + |mid|) == ENDLINE_TOKEN
            && |LineTokens(procName, n)| == 2 + |mid|
  {
    var toks := LineTokens(procName, n);
    var mid := OperandPart(procName, n.operand);
    assert toks == [toks[0]] + (mid + [ENDLINE_TOKEN]);
    ReadsSplit(input, q, [toks[0]], mid + [ENDLINE_TOKEN]);
    ReadsAt(input, q, [toks[0]], 0);
    ReadsSplit(input, q + 1, mid, [ENDLINE_TOKEN]);
    ReadsAt(input, q + 1 + |mid|, [ENDLINE_TOKEN], 0);
  }

  /** An instruction token, an operand that reads up to `e`, and an ENDLINE
      there make the instruction line `n`. */
  lemma InstAt(input: seq<Token>, q: nat, procName: Option<string>, k: OpIndex, n: Ast.Node, e: nat)
    requires n.Inst? && TokenAt(input, q) == Token(Op(k), n.name) && InstructionTag(k) == Some(n.tag)
    requires InstOperandSpec(input, TokenForm(k), Here(input, q + 1, procName)) == Ok((n.operand, Here(input, e, procName)))
    requires TokenAt(input, e) == ENDLINE_TOKEN
    ensures InstSpec(input, Here(input, q, procName)) == Ok((n, Here(input, e + 1, procName)))
  {
    ShiftHere(input, q, procName);
    ShiftHere(input, e, procName);
    assert EndOfLine(input, Here(input, e, procName)) == Some(Here(input, e + 1, procName));
  }

  /** An instruction token, an operand that fits it and reads back, and an
      ENDLINE after the operand make the instruction line `n`. */
  lemma InstRead(input: seq<Token>, q: nat, procName: Option<string>, k: OpIndex, n: Ast.Node)
    requires n.Inst? && TokenAt(input, q) == Token(Op(k), n.name) && InstructionTag(k) == Some(n.tag)
    requires Fits(TokenForm(k), n.operand) == true
    requires n.operand.Some? ==> OperandReadable(procName, n.operand.value) == true
    requires Reads(input, q + 1, OperandPart(procName, n.operand))
    requires TokenAt(input, q + 1 + |OperandPart(procName, n.operand)|) == ENDLINE_TOKEN
    ensures InstSpec(input, Here(input, q, procName))
              == Ok((n, Here(input, q + 2 + |OperandPart(procName, n.operand)|, procName)))
  {
    OperandParses(input, q + 1, procName, TokenForm(k), n.operand);
    InstAt(input, q, procName, k, n, q + 1 + |OperandPart(procName, n.operand)|);
  }

  /** What the instruction token of a readable instruction line tells the
      parser: its tag and the form of its operand. */
  lemma InstFacts(procName: Option<string>, n: Ast.Node)
    requires InstLine(n) && Readable(procName, n)
    ensures var k := TokenIndex(n.tag.op);
            && InstructionTag(k) == Some(n.tag) && Fits(TokenForm(k), n.operand) == true
            && (n.operand.Some? ==> OperandReadable(procName, n.operand.value) == true)
  {
  }

  /** A readable instruction line, read from its tokens at `q`. */
  lemma InstParses(input: seq<Token>, q: nat, procName: Option<string>, n: Ast.Node)
    requires InstLine(n) && Readable(procName, n)
    requires Reads(input, q, LineTokens(procName, n))
    ensures TokenAt(input, q) == LineTokens(procName, n)[0]
    ensures InstSpec(input, Here(input, q, procName))
              == Ok((n, Here(input, q + |LineTokens(procName, n)|, procName)))
  {
    InstFacts(procName, n);
    InstTokens(input, q, procName, n);
    InstRead(input, q, procName, TokenIndex(n.tag.op), n);
  }

  /** Every line's tokens start with an ID, PROC or an instruction token. */
  predicate StartsLine(t: Token) {
    t.kind == Id || t.kind == ProcWord || t.kind.Op?
  }

  lemma {:induction false} LinesTokensStart(procName: Option<string>, lines: seq<Ast.Node>)
    ensures LinesTokens(procName, lines) != [] ==> StartsLine(LinesTokens(procName, lines)[0])
    decreases lines
  {
    if lines != [] {
      LinesTokensStart(procName, lines[1..]);
    }
  }

  /** Taking the j-th element onto what was collected. */
  lemma AppendNext<T>(acc: seq<T>, s: seq<T>, j: nat)
    requires j < |s|
    ensures acc + [s[j]] + s[j + 1..] == acc + s[j..]
  {
    assert s[j..] == [s[j]] + s[j + 1..];
  }

  /** One turn of the loop of tasm_parse_proc that reads a line. */
  lemma BodyStep(input: seq<Token>, w: Window, v: Window, n: Ast.Node, acc: seq<Ast.Node>)
    requires Placed(input, w) && w.procName.Some? && w.current.kind != EndpWord
    requires ProcLineSpec(input, w) == Ok((Some(n), v))
    requires v.current.kind != Eof && v.pos > w.pos
    ensures Placed(input, v) && v.procName.Some?
    ensures ProcBodySpec(input, w, acc) == ProcBodySpec(input, v, acc + [n])
  {
  }

  /** One turn of the loop of tasm_parse_file that reads a line. */
  lemma FileStep(input: seq<Token>, w: Window, v: Window, n: Ast.Node, acc: seq<Ast.Node>)
    requires Placed(input, w) && w.current.kind != Eof
    requires LineSpec(input, w) == Ok((Some(n), v)) && v.pos > w.pos
    ensures Placed(input, v)
    ensures FileLinesSpec(input, w, acc) == FileLinesSpec(input, v, acc + [n])
  {
  }

  lemma {:induction false} ProcLineParses(input: seq<Token>, q: nat, procName: Option<string>, n: Ast.Node)
    requires Readable(procName, n) == true
    requires Reads(input, q, LineTokens(procName, n)) == true
    ensures ProcLineSpec(input, Here(input, q, procName))
              == Ok((Some(n), Here(input, q + |LineTokens(procName, n)|, procName)))
    ensures |LineTokens(procName, n)| > 0 && StartsLine(TokenAt(input, q))
  {
    var toks := LineTokens(procName, n);
    LineTokensStart(procName, n);
    ReadsAt(input, q, toks, 0);
    if n.LabelDecl? {
      ReadsAt(input, q, toks, 1);
      ShiftHere(input, q, procName);
      ShiftHere(input, q + 1, procName);
    } else {
      InstParses(input, q, procName, n);
    }
  }

  /** The lines `lines` of the body of procedure `name`, each readable, have
      their tokens from the q-th on, and the ENDP follows them. */
  predicate BodyAt(input: seq<Token>, q: nat, name: string, lines: seq<Ast.Node>)
    decreases lines, 1
  {
    if lines == [] then TokenAt(input, q) == ENDP_TOKEN else LineAt(input, q, name, lines)
  }

  /** The first of `lines` has its tokens from the q-th on, and the rest
      follow them. */
  predicate LineAt(input: seq<Token>, q: nat, name: string, lines: seq<Ast.Node>)
    requires lines != []
    decreases lines, 0
  {
    && Readable(Some(name), lines[0])
    && Reads(input, q, LineTokens(Some(name), lines[0]))
    && BodyAt(input, q + |LineTokens(Some(name), lines[0])|, name, lines[1..])
  }

  lemma {:induction false} BodyAtTokens(input: seq<Token>, q: nat, name: string, lines: seq<Ast.Node>)
    requires forall i | 0 <= i < |lines| :: Readable(Some(name), lines[i])
    requires Reads(input, q, LinesTokens(Some(name), lines))
    requires TokenAt(input, q + |LinesTokens(Some(name), lines)|) == ENDP_TOKEN
    ensures BodyAt(input, q, name, lines)
    decreases lines
  {
    if lines != [] {
      var a := LineTokens(Some(name), lines[0]);
      var b := LinesTokens(Some(name), lines[1..]);
      assert LinesTokens(Some(name), lines) == a + b;
      ReadsSplit(input, q, a, b);
      assert Readable(Some(name), lines[0]);
      assert forall i | 0 <= i < |lines[1..]| :: Readable(Some(name), lines[1..][i]) by {
        forall i | 0 <= i < |lines[1..]| ensures Readable(Some(name), lines[1..][i]) {
          assert lines[1..][i] == lines[i + 1];
        }
      }
      BodyAtTokens(input, q + |a|, name, lines[1..]);
    }
  }

  /** A readable line has tokens, and the first starts a line. */
  lemma LineTokensStart(procName: Option<string>, n: Ast.Node)
    requires Readable(procName, n)
    ensures LineTokens(procName, n) != [] && StartsLine(LineTokens(procName, n)[0])
  {
  }

  /** Where body lines are read, the current token starts a line or is the
      ENDP after them: it is not EOF. */
  lemma BodyStart(input: seq<Token>, q: nat, name: string, lines: seq<Ast.Node>)
    requires BodyAt(input, q, name, lines)
    ensures StartsLine(TokenAt(input, q)) || TokenAt(input, q) == ENDP_TOKEN
  {
    if lines != [] {
      assert LineAt(input, q, name, lines);
      LineTokensStart(Some(name), lines[0]);
      ReadsAt(input, q, LineTokens(Some(name), lines[0]), 0);
    }
  }

  /** The body loop gives the same from `w` with `acc` collected as from `v`
      with `acc'`. This and the three predicates below are written `== true`
      where a lemma requires or ensures them, so that the verifier keeps them
      folded there instead of unfolding the loop's specification. */
  predicate SameBody(input: seq<Token>, w: Window, acc: seq<Ast.Node>, v: Window, acc': seq<Ast.Node>) {
    && Placed(input, w) && w.procName.Some? && Placed(input, v) && v.procName.Some?
    && ProcBodySpec(input, w, acc) == ProcBodySpec(input, v, acc')
  }

  /** The body loop from `w`, with `acc` collected, gives `r`. */
  predicate BodyGives(input: seq<Token>, w: Window, acc: seq<Ast.Node>, r: Parse<seq<Ast.Node>>) {
    Placed(input, w) && w.procName.Some? && ProcBodySpec(input, w, acc) == r
  }

  /** A line of a body that reads up to the start of another line or to the
      ENDP is one turn of the body's loop. */
  lemma TurnAt(input: seq<Token>, q: nat, q': nat, name: string, n: Ast.Node, acc: seq<Ast.Node>)
    requires q < q' && StartsLine(TokenAt(input, q))
    requires StartsLine(TokenAt(input, q')) || TokenAt(input, q') == ENDP_TOKEN
    requires ProcLineSpec(input, Here(input, q, Some(name))) == Ok((Some(n), Here(input, q', Some(name))))
    ensures SameBody(input, Here(input, q, Some(name)), acc, Here(input, q', Some(name)), acc + [n]) == true
  {
    BodyStep(input, Here(input, q, Some(name)), Here(input, q', Some(name)), n, acc);
  }

  /** A readable line of a body, followed by the start of another line or
      by the ENDP, is one turn of the body's loop. */
  lemma LineTurn(input: seq<Token>, q: nat, q': nat, name: string, n: Ast.Node, acc: seq<Ast.Node>)
    requires Readable(Some(name), n) && Reads(input, q, LineTokens(Some(name), n))
    requires q' == q + |LineTokens(Some(name), n)|
    requires StartsLine(TokenAt(input, q')) || TokenAt(input, q') == ENDP_TOKEN
    ensures SameBody(input, Here(input, q, Some(name)), acc, Here(input, q', Some(name)), acc + [n]) == true
  {
    ProcLineParses(input, q, Some(name), n);
    TurnAt(input, q, q', name, n, acc);
  }

  lemma BodyTurn(input: seq<Token>, q: nat, name: string, lines: seq<Ast.Node>, acc: seq<Ast.Node>)
    requires lines != [] && LineAt(input, q, name, lines)
    ensures var q' := q + |LineTokens(Some(name), lines[0])|;
            && SameBody(input, Here(input, q, Some(name)), acc, Here(input, q', Some(name)), acc + [lines[0]]) == true
            && BodyAt(input, q', name, lines[1..])
  {
    var q' := q + |LineTokens(Some(name), lines[0])|;
    BodyStart(input, q', name, lines[1..]);
    LineTurn(input, q, q', name, lines[0], acc);
  }

  /** Where the ENDP after body lines is. */
  function BodyEnd(q: nat, name: string, lines: seq<Ast.Node>): (e: nat)
    ensures e == q + |LinesTokens(Some(name), lines)|
    decreases lines
  {
    if lines == [] then q
    else
      assert LinesTokens(Some(name), lines) == LineTokens(Some(name), lines[0]) + LinesTokens(Some(name), lines[1..]);
      BodyEnd(q + |LineTokens(Some(name), lines[0])|, name, lines[1..])
  }

  /** The lines of a procedure body, read up to the ENDP after them. */
  lemma {:induction false} BodyParses(input: seq<Token>, q: nat, name: string, lines: seq<Ast.Node>, acc: seq<Ast.Node>)
    requires BodyAt(input, q, name, lines)
    ensures BodyGives(input, Here(input, q, Some(name)), acc,
                      Ok((acc + lines, Here(input, BodyEnd(q, name, lines), Some(name))))) == true
    decreases lines
  {
    if lines == [] {
      assert acc + lines == acc;
    } else {
      var q' := q + |LineTokens(Some(name), lines[0])|;
      BodyTurn(input, q, name, lines, acc);
      BodyParses(input, q', name, lines[1..], acc + [lines[0]]);
      TakeFirst(acc, lines);
      GivesThrough(input, Here(input, q, Some(name)), acc, Here(input, q', Some(name)), acc + [lines[0]],
                   Ok((acc + lines, Here(input, BodyEnd(q, name, lines), Some(name)))));
    }
  }

  lemma TakeFirst<T>(acc: seq<T>, s: seq<T>)
    requires s != []
    ensures acc + [s[0]] + s[1..] == acc + s
  {
    assert s == [s[0]] + s[1..];
  }

  lemma GivesThrough(input: seq<Token>, w: Window, acc: seq<Ast.Node>, v: Window, acc': seq<Ast.Node>,
                     r: Parse<seq<Ast.Node>>)
    requires SameBody(input, w, acc, v, acc') == true && BodyGives(input, v, acc', r) == true
    ensures BodyGives(input, w, acc, r) == true
  {
  }

  /** The tokens of a procedure: PROC, its name, an ENDLINE, the body, ENDP
      and an ENDLINE. */
  lemma ProcTokens(input: seq<Token>, q: nat, n: Ast.Node)
    requires n.Proc? && Reads(input, q, LineTokens(None, n))
    ensures var body := LinesTokens(Some(n.procName), n.procLines);
            && TokenAt(input, q) == PROC_TOKEN && TokenAt(input, q + 1) == Token(Id, n.procName)
            && TokenAt(input, q + 2) == ENDLINE_TOKEN
            && Reads(input, q + 3, body)
            && TokenAt(input, q + 3 + |body|) == ENDP_TOKEN && TokenAt(input, q + 4 + |body|) == ENDLINE_TOKEN
            && |LineTokens(None, n)| == 5 + |body|
  {
    var toks := LineTokens(None, n);
    var body := LinesTokens(Some(n.procName), n.procLines);
    var head := [PROC_TOKEN, Token(Id, n.procName), ENDLINE_TOKEN];
    assert toks == head + (body + [ENDP_TOKEN, ENDLINE_TOKEN]);
    ReadsSplit(input, q, head, body + [ENDP_TOKEN, ENDLINE_TOKEN]);
    ReadsAt(input, q, head, 0);
    ReadsAt(input, q, head, 1);
    ReadsAt(input, q, head, 2);
    ReadsSplit(input, q + 3, body, [ENDP_TOKEN, ENDLINE_TOKEN]);
    ReadsAt(input, q + 3 + |body|, [ENDP_TOKEN, ENDLINE_TOKEN], 0);
    ReadsAt(input, q + 3 + |body|, [ENDP_TOKEN, ENDLINE_TOKEN], 1);
  }

  /** The ENDLINE that ends a line of a body is an empty line of its own. */
  lemma EmptyBodyLine(input: seq<Token>, q: nat, name: string, acc: seq<Ast.Node>)
    requires TokenAt(input, q) == ENDLINE_TOKEN
    requires StartsLine(TokenAt(input, q + 1)) || TokenAt(input, q + 1) == ENDP_TOKEN
    ensures SameBody(input, Here(input, q, Some(name)), acc, Here(input, q + 1, Some(name)), acc) == true
  {
    ShiftHere(input, q, Some(name));
    assert ProcLineSpec(input, Here(input, q, Some(name))) == Ok((None, Here(input, q + 1, Some(name))));
    assert ProcBodySpec(input, Here(input, q, Some(name)), acc) == ProcBodySpec(input, Here(input, q + 1, Some(name)), acc);
  }

  /** The body of a procedure, from the ENDLINE after its name to its ENDP. */
  lemma BodyFrom(input: seq<Token>, q: nat, name: string, lines: seq<Ast.Node>)
    requires forall i | 0 <= i < |lines| :: Readable(Some(name), lines[i])
    requires TokenAt(input, q) == ENDLINE_TOKEN && Reads(input, q + 1, LinesTokens(Some(name), lines))
    requires TokenAt(input, q + 1 + |LinesTokens(Some(name), lines)|) == ENDP_TOKEN
    ensures BodyGives(input, Here(input, q, Some(name)), [],
                      Ok((lines, Here(input, q + 1 + |LinesTokens(Some(name), lines)|, Some(name))))) == true
  {
    BodyAtTokens(input, q + 1, name, lines);
    BodyAfter(input, q, name, lines);
  }

  lemma BodyAfter(input: seq<Token>, q: nat, name: string, lines: seq<Ast.Node>)
    requires TokenAt(input, q) == ENDLINE_TOKEN && BodyAt(input, q + 1, name, lines)
    ensures BodyGives(input, Here(input, q, Some(name)), [],
                      Ok((lines, Here(input, BodyEnd(q + 1, name, lines), Some(name))))) == true
  {
    BodyStart(input, q + 1, name, lines);
    EmptyBodyLine(input, q, name, []);
    assert [] + lines == lines;
    BodyParses(input, q + 1, name, lines, []);
    GivesThrough(input, Here(input, q, Some(name)), [], Here(input, q + 1, Some(name)), [],
                 Ok((lines, Here(input, BodyEnd(q + 1, name, lines), Some(name)))));
  }

  /** PROC, a name, a body that the body loop reads up to an ENDP, and an
      ENDLINE after it make a procedure. */
  lemma ProcAt(input: seq<Token>, q: nat, e: nat, n: Ast.Node)
    requires n.Proc? && TokenAt(input, q) == PROC_TOKEN && TokenAt(input, q + 1) == Token(Id, n.procName)
    requires BodyGives(input, Here(input, q + 2, Some(n.procName)), [],
                       Ok((n.procLines, Here(input, e, Some(n.procName))))) == true
    requires TokenAt(input, e) == ENDP_TOKEN && TokenAt(input, e + 1) == ENDLINE_TOKEN
    ensures ProcSpec(input, Here(input, q, None)) == Ok((n, Here(input, e + 2, None)))
  {
    ProcHead(input, q, n.procName);
    ProcTail(input, e, n.procName);
  }

  /** After PROC and its name the window sits on the body, inside the
      procedure. */
  lemma ProcHead(input: seq<Token>, q: nat, name: string)
    ensures Shift(input, Here(input, q, None)) == Here(input, q + 1, None)
    ensures Shift(input, Here(input, q + 1, None).(procName := Some(name))) == Here(input, q + 2, Some(name))
  {
  }

  /** After the ENDP the procedure's name is cleared, and an ENDLINE ends
      the line. */
  lemma ProcTail(input: seq<Token>, e: nat, name: string)
    requires TokenAt(input, e + 1) == ENDLINE_TOKEN
    ensures EndOfLine(input, Shift(input, Here(input, e, Some(name))).(procName := None))
              == Some(Here(input, e + 2, None))
  {
    assert Shift(input, Here(input, e, Some(name))).(procName := None) == Here(input, e + 1, None);
    ShiftHere(input, e + 1, None);
  }

  lemma ProcParses(input: seq<Token>, q: nat, n: Ast.Node)
    requires n.Proc? && forall i | 0 <= i < |n.procLines| :: Readable(Some(n.procName), n.procLines[i])
    requires Reads(input, q, LineTokens(None, n))
    ensures TokenAt(input, q) == PROC_TOKEN && |LineTokens(None, n)| > 0
    ensures ProcSpec(input, Here(input, q, None)) == Ok((n, Here(input, q + |LineTokens(None, n)|, None)))
  {
    ProcTokens(input, q, n);
    BodyFrom(input, q + 2, n.procName, n.procLines);
    ProcAt(input, q, q + 3 + |LinesTokens(Some(n.procName), n.procLines)|, n);
  }

  lemma LabelLineParses(input: seq<Token>, q: nat, n: Ast.Node)
    requires n.LabelDecl? && Reads(input, q, LineTokens(None, n))
    ensures TokenAt(input, q).kind == Id && |LineTokens(None, n)| > 0
    ensures LineSpec(input, Here(input, q, None)) == Ok((Some(n), Here(input, q + |LineTokens(None, n)|, None)))
  {
    var toks := LineTokens(None, n);
    ReadsAt(input, q, toks, 0);
    ReadsAt(input, q, toks, 1);
    ShiftHere(input, q, None);
    ShiftHere(input, q + 1, None);
  }

  /** An instruction, read as a line of a file. */
  lemma LineOfInst(input: seq<Token>, w: Window, n: Ast.Node, v: Window)
    requires Placed(input, w) && w.current.kind.Op? && InstSpec(input, w) == Ok((n, v))
    ensures LineSpec(input, w) == Ok((Some(n), v))
  {
  }

  /** A procedure, read as a line of a file. */
  lemma LineOfProc(input: seq<Token>, w: Window, n: Ast.Node, v: Window)
    requires Placed(input, w) && w.current.kind == ProcWord && ProcSpec(input, w) == Ok((n, v))
    ensures LineSpec(input, w) == Ok((Some(n), v))
  {
  }

  /** An instruction line, read as a line of a file. */
  lemma InstLineParses(input: seq<Token>, q: nat, n: Ast.Node)
    requires InstLine(n) && Readable(None, n) && Reads(input, q, LineTokens(None, n))
    ensures TokenAt(input, q).kind.Op? && |LineTokens(None, n)| > 0
    ensures LineSpec(input, Here(input, q, None)) == Ok((Some(n), Here(input, q + |LineTokens(None, n)|, None)))
  {
    InstTokens(input, q, None, n);
    InstParses(input, q, None, n);
    LineOfInst(input, Here(input, q, None), n, Here(input, q + |LineTokens(None, n)|, None));
  }

  /** A procedure, read as a line of a file. */
  lemma ProcLineOfFileParses(input: seq<Token>, q: nat, n: Ast.Node)
    requires n.Proc? && forall i | 0 <= i < |n.procLines| :: Readable(Some(n.procName), n.procLines[i])
    requires Reads(input, q, LineTokens(None, n))
    ensures TokenAt(input, q) == PROC_TOKEN && |LineTokens(None, n)| > 0
    ensures LineSpec(input, Here(input, q, None)) == Ok((Some(n), Here(input, q + |LineTokens(None, n)|, None)))
  {
    ProcParses(input, q, n);
    LineOfProc(input, Here(input, q, None), n, Here(input, q + |LineTokens(None, n)|, None));
  }

  /** A line of a file that its tokens give back, read from them at `q`. */
  lemma LineParses(input: seq<Token>, q: nat, n: Ast.Node)
    requires TopReadable(n)
    requires Reads(input, q, LineTokens(None, n))
    ensures TokenAt(input, q).kind != Eof && |LineTokens(None, n)| > 0
    ensures LineSpec(input, Here(input, q, None)) == Ok((Some(n), Here(input, q + |LineTokens(None, n)|, None)))
  {
    if n.LabelDecl? {
      LabelLineParses(input, q, n);
    } else if InstLine(n) {
      InstLineParses(input, q, n);
    } else {
      ProcLineOfFileParses(input, q, n);
    }
  }

  /** The file loop gives the same from `w` with `acc` collected as from `v`
      with `acc'`. */
  predicate SameFile(input: seq<Token>, w: Window, acc: seq<Ast.Node>, v: Window, acc': seq<Ast.Node>) {
    && Placed(input, w) && Placed(input, v)
    && FileLinesSpec(input, w, acc) == FileLinesSpec(input, v, acc')
  }

  /** The file loop from `w`, with `acc` collected, gives `r`. */
  predicate FileGives(input: seq<Token>, w: Window, acc: seq<Ast.Node>, r: Parse<seq<Ast.Node>>) {
    Placed(input, w) && FileLinesSpec(input, w, acc) == r
  }

  lemma FileGivesThrough(input: seq<Token>, w: Window, acc: seq<Ast.Node>, v: Window, acc': seq<Ast.Node>,
                         r: Parse<seq<Ast.Node>>)
    requires SameFile(input, w, acc, v, acc') == true && FileGives(input, v, acc', r) == true
    ensures FileGives(input, w, acc, r) == true
  {
  }

  /** A well-formed line of a file is one turn of the file's loop. */
  lemma FileTurn(input: seq<Token>, q: nat, n: Ast.Node, acc: seq<Ast.Node>)
    requires TopReadable(n) && Reads(input, q, LineTokens(None, n))
    ensures SameFile(input, Here(input, q, None), acc, Here(input, q + |LineTokens(None, n)|, None), acc + [n]) == true
  {
    LineParses(input, q, n);
    FileStep(input, Here(input, q, None), Here(input, q + |LineTokens(None, n)|, None), n, acc);
  }

  /** The lines of a file from the j-th on, read up to the end of the stream. */
  lemma {:induction false} FileLinesParses(input: seq<Token>, q: nat, lines: seq<Ast.Node>, j: nat, acc: seq<Ast.Node>)
    requires j <= |lines| && forall i | 0 <= i < |lines| :: TopReadable(lines[i])
    requires Reads(input, q, LinesTokens(None, lines[j..])) && q + |LinesTokens(None, lines[j..])| == |input|
    ensures FileGives(input, Here(input, q, None), acc, Ok((acc + lines[j..], Here(input, |input|, None)))) == true
    decreases |lines| - j
  {
    if j == |lines| {
      assert lines[j..] == [] && acc + lines[j..] == acc;
    } else {
      var n := lines[j];
      var a := LineTokens(None, n);
      var b := LinesTokens(None, lines[j + 1..]);
      assert lines[j..][1..] == lines[j + 1..];
      assert LinesTokens(None, lines[j..]) == a + b;
      ReadsSplit(input, q, a, b);
      FileTurn(input, q, n, acc);
      FileLinesParses(input, q + |a|, lines, j + 1, acc + [n]);
      AppendNext(acc, lines, j);
      FileGivesThrough(input, Here(input, q, None), acc, Here(input, q + |a|, None), acc + [n],
                       Ok((acc + lines[j..], Here(input, |input|, None))));
    }
  }

  /** Reading back: the tokens of a file of well-formed lines parse to that
      file, ending on the EOF after them. */
  lemma ParseFileReadsBack(lines: seq<Ast.Node>)
    requires forall i | 0 <= i < |lines| :: TopReadable(lines[i])
    ensures var input := LinesTokens(None, lines);
            FileSpec(input, Start(input)) == Ok((Ast.File(lines), Here(input, |input|, None)))
  {
    var input := LinesTokens(None, lines);
    assert Shift(input, Start(input)) == Here(input, 0, None);
    assert input[0..] == input && lines[0..] == lines && [] + lines == lines;
    ReadsRest(input, 0);
    FileLinesParses(input, 0, lines, 0, []);
    assert FileGives(input, Here(input, 0, None), [], Ok((lines, Here(input, |input|, None))));
  }

  // ---------------------------------------------------------------------------
  // The parser object

  class Parser {
    const input: seq<Token>
    var pos: nat
    var prev: Token
    var current: Token
    var next: Token
    var procName: Option<string>

    function View(): Window
      reads this
    {
      Window(pos, prev, current, next, procName)
    }

    ghost predicate Valid()
      reads this
    {
      Placed(input, View())
    }

    /** The measure of the two parse loops. */
    function Remaining(): nat
      reads this
    {
      Left(input, View())
    }

    /** `tasm_parser_init`: both window slots before the first token hold
        TOKEN_NONE, and `next` is the first token of the lexer. */
    constructor (tokens: seq<Token>)
      ensures input == tokens && Valid() && View() == Start(tokens)
      ensures pos == 1 && prev == NO_TOKEN && current == NO_TOKEN
      ensures next == TokenAt(tokens, 0) && procName.None?
    {
      input := tokens;
      pos := 1;
      prev := NO_TOKEN;
      current := NO_TOKEN;
      next := TokenAt(tokens, 0);
      procName := None;
    }

    /** `tasm_parser_eat`: on a match the window moves one token on; on a
        mismatch the process exits, reported here as `ok == false` with
        nothing changed. */
    method Eat(kind: TokenKind) returns (ok: bool)
      requires Valid()
      modifies this
      ensures Valid()
      ensures ok <==> old(current).kind == kind
      ensures View() == if ok then Shift(input, old(View())) else old(View())
    {
      if current.kind != kind {
        return false;
      }
      prev, current, next, pos := current, next, TokenAt(input, pos), pos + 1;
      ok := true;
    }

    /** The end of tasm_parse_instruction and tasm_parse_proc. */
    method ExpectEndOfLine() returns (ok: bool)
      requires Valid()
      modifies this
      ensures Valid()
      ensures ok <==> EndOfLine(input, old(View())).Some?
      ensures ok ==> View() == EndOfLine(input, old(View())).value
      ensures procName == old(procName) && old(pos) <= pos
    {
      if current.kind == Comment {
        ok := Eat(Comment);
      }
      if current.kind == Eof {
        ok := Eat(Eof);
      } else {
        ok := Eat(EndLine);
      }
    }

    /** The tail of tasm_parse_line and tasm_parse_proc_line. */
    method SkipSeparators()
      requires Valid()
      modifies this
      ensures Valid()
      ensures View() == Separators(input, old(View()))
    {
      var ok;
      if current.kind == EndLine {
        ok := Eat(EndLine);
      }
      if current.kind == Comment {
        ok := Eat(Comment);
      }
      if current.kind == Eof {
        ok := Eat(Eof);
      }
    }

    /** `tasm_parse_label_decl`: an ID followed by a COLON. */
    method ParseLabelDecl() returns (r: Outcome<Ast.Node>)
      requires Valid()
      modifies this
      ensures Valid() && procName == old(procName) && old(pos) <= pos
      ensures r.Ok? <==> old(current).kind == Id && old(next).kind == Colon
      ensures r.Ok? ==> r.value == Ast.LabelDecl(old(current).value)
      ensures r.Ok? ==> View() == Shift(input, Shift(input, old(View())))
      ensures r.Fail? ==> r.failure == Fatal
    {
      var name := current.value;
      var ok := Eat(Id);
      if !ok {
        return Fail(Fatal);
      }
      ok := Eat(Colon);
      if !ok {
        return Fail(Fatal);
      }
      r := Ok(Ast.LabelDecl(name));
    }

    /** `tasm_parse_num_lit`. */
    method ParseNumLit() returns (r: Outcome<Ast.Node>)
      requires Valid()
      modifies this
      ensures Valid()
      ensures r.Ok? <==> old(current).kind == Number
      ensures r.Ok? ==> r.value == NumberLiteral(old(current).value)
      ensures r.Ok? ==> View() == Shift(input, old(View()))
      ensures r.Fail? ==> r.failure == Fatal && View() == old(View())
    {
      var text := current.value;
      var ok := Eat(Number);
      if !ok {
        return Fail(Fatal);
      }
      r := Ok(NumberLiteral(text));
    }

    /** `tasm_parse_char_lit`: APOST, the ID between the quotes, APOST. */
    method ParseCharLit() returns (r: Outcome<Ast.Node>)
      requires Valid()
      modifies this
      ensures Valid() && procName == old(procName) && old(pos) <= pos
      ensures r.Ok? <==> old(current).kind == Apost && old(next).kind == Id
                         && TokenAt(input, old(pos)).kind == Apost
      ensures r.Ok? ==> r.value == Ast.Char(old(next).value)
      ensures r.Ok? ==> View() == Shift(input, Shift(input, Shift(input, old(View()))))
      ensures r.Fail? ==> r.failure == Fatal
    {
      var ok := Eat(Apost);
      if !ok {
        return Fail(Fatal);
      }
      var value := current.value;
      ok := Eat(Id);
      if !ok {
        return Fail(Fatal);
      }
      ok := Eat(Apost);
      if !ok {
        return Fail(Fatal);
      }
      r := Ok(Ast.Char(value));
    }

    /** `tasm_parse_label_call`. */
    method ParseLabelCall() returns (r: Outcome<Ast.Node>)
      requires Valid()
      modifies this
      ensures Valid()
      ensures r.Ok? <==> old(current).kind == Id
      ensures r.Ok? ==> r.value == Ast.LabelCall(old(current).value)
      ensures r.Ok? ==> View() == Shift(input, old(View()))
      ensures r.Fail? ==> r.failure == Fatal && View() == old(View())
    {
      var name := current.value;
      var ok := Eat(Id);
      if !ok {
        return Fail(Fatal);
      }
      r := Ok(Ast.LabelCall(name));
    }

    /** tasm_parse_number_operand, tasm_parse_push_operand,
        tasm_parse_jmp_operand and tasm_parse_label_operand: when the current
        token can start an operand of the form, that operand is parsed; when it
        cannot, the result is NULL and nothing is consumed. */
    method ParseOperand(form: OperandForm) returns (r: Outcome<Option<Ast.Node>>)
      requires Valid() && form != NoOperand
      modifies this
      ensures Valid() && procName == old(procName) && old(pos) <= pos
      ensures !CanStart(form, old(current).kind) ==> r == Ok(None) && View() == old(View())
      ensures CanStart(form, old(current).kind) && r.Ok? ==>
                r.value == Some(OperandFrom(old(current), old(next)))
      ensures r.Fail? ==> r.failure == Fatal && old(current).kind == Apost
      ensures r == Returned(OperandSpec(input, form, old(View())))
      ensures r.Ok? ==> View() == OperandSpec(input, form, old(View())).value.1
    {
      var lit;
      if current.kind == Number && form != LabelOperand {
        lit := ParseNumLit();
      } else if current.kind == Apost && form == PushOperand {
        lit := ParseCharLit();
      } else if current.kind == Id && (form == JumpOperand || form == LabelOperand) {
        lit := ParseLabelCall();
      } else {
        return Ok(None);
      }
      match lit
      case Ok(n) => r := Ok(Some(n));
      case Fail(f) => r := Fail(f);
    }

    /** The operand part of `tasm_parse_instruction` for the k-th
        instruction token, called once that token is eaten: the operand parser
        of its opcode (a NULL result is fatal), then the renaming of a label
        call inside a procedure. */
    method ParseInstructionOperand(k: OpIndex) returns (r: Outcome<Option<Ast.Node>>)
      requires Valid()
      modifies this
      ensures Valid() && procName == old(procName) && old(pos) <= pos
      ensures r.Ok? ==> Fits(TokenForm(k), r.value)
      ensures r.Ok? && r.value.Some? ==>
                r.value.value == Renamed(procName, OperandFrom(old(current), old(next)))
      ensures (TokenForm(k) != NoOperand && !CanStart(TokenForm(k), old(current).kind)) ==> r == Fail(Fatal)
      ensures r.Fail? ==> r.failure == Fatal
      ensures r == Returned(InstOperandSpec(input, TokenForm(k), old(View())))
      ensures r.Ok? ==> View() == InstOperandSpec(input, TokenForm(k), old(View())).value.1
    {
      var form := TokenForm(k);
      if form == NoOperand {
        return Ok(None);
      }
      var parsed := ParseOperand(form);
      if parsed.Fail? || parsed.value.None? {
        return Fail(Fatal);
      }
      var operand := parsed.value.value;
      if procName.Some? && operand.LabelCall? {
        operand := Ast.LabelCall(procName.value + operand.callName);
      }
      r := Ok(Some(operand));
    }

    /** `tasm_parse_instruction`: the instruction token, its operand, and the
        end of the line; the node is built last, which reads the tag. */
    method ParseInstruction() returns (r: Outcome<Ast.Node>)
      requires Valid() && current.kind.Op?
      modifies this
      ensures Valid() && procName == old(procName) && old(pos) < pos
      ensures r.Ok? ==> r.value.Inst? && InstLine(r.value) && r.value.name == old(current).value
      ensures r.Ok? ==> Some(r.value.tag) == InstructionTag(old(current).kind.index)
      ensures r.Ok? && r.value.operand.Some? ==>
                r.value.operand.value
                == Renamed(old(procName), OperandFrom(old(next), TokenAt(input, old(pos))))
      ensures (TokenForm(old(current).kind.index) != NoOperand
               && !CanStart(TokenForm(old(current).kind.index), old(next).kind)) ==> r == Fail(Fatal)
      ensures old(current).kind.index == 19 ==> r.Fail?
      ensures r.Fail? && r.failure != Fatal ==> r.failure == Undefined && old(current).kind.index == 19
      ensures r.Ok? ==> prev.kind == Eof || prev.kind == EndLine
      ensures r == Returned(InstSpec(input, old(View())))
      ensures r.Ok? ==> View() == InstSpec(input, old(View())).value.1
    {
      var name := current.value;
      var k := current.kind.index;
      var ok := Eat(current.kind);
      var operand := ParseInstructionOperand(k);
      if operand.Fail? {
        return Fail(Fatal);
      }
      ok := ExpectEndOfLine();
      if !ok {
        return Fail(Fatal);
      }
      var tag := InstructionTag(k);
      if tag.None? {
        return Fail(Undefined);
      }
      r := Ok(Ast.Inst(tag.value, name, operand.value));
    }

    /** `tasm_parse_proc_line`: a label declaration or an instruction; a
        nested PROC and a stray ID are fatal; otherwise the separators are
        skipped and there is no line. */
    method ParseProcLine() returns (r: Outcome<Option<Ast.Node>>)
      requires Valid()
      modifies this
      ensures Valid() && procName == old(procName) && old(pos) <= pos
      ensures r.Ok? && pos == old(pos) ==> r.value.None? && View() == old(View())
      ensures r.Ok? && r.value.Some? ==> ProcLine(r.value.value)
      ensures r.Ok? && r.value.Some? && procName.Some? ==> CallsUnder(procName.value, r.value.value)
      ensures old(current).kind == ProcWord ==> r == Fail(Fatal)
      ensures old(current).kind == Id && old(next).kind != Colon ==> r == Fail(Fatal)
      ensures r.Ok? && r.value.None? ==> View() == Separators(input, old(View()))
      ensures r == Returned(ProcLineSpec(input, old(View())))
      ensures r.Ok? ==> View() == ProcLineSpec(input, old(View())).value.1
    {
      if current.kind == Id && next.kind == Colon {
        var decl := ParseLabelDecl();
        return if decl.Ok? then Ok(Some(decl.value)) else Fail(Fatal);
      }
      if current.kind.Op? {
        var inst := ParseInstruction();
        return if inst.Ok? then Ok(Some(inst.value)) else Fail(inst.failure);
      }
      if current.kind == ProcWord || current.kind == Id {
        return Fail(Fatal);
      }
      SkipSeparators();
      r := Ok(None);
    }

    /** The loop of `tasm_parse_proc`: body lines up to ENDP, where reaching
        the end of the file first is fatal. */
    method ParseProcBody() returns (r: Outcome<seq<Ast.Node>>)
      requires Valid() && pos >= 2 && procName.Some?
      modifies this
      ensures Valid() && procName == old(procName) && old(pos) <= pos
      ensures r.Ok? ==> current.kind == EndpWord
      ensures r.Ok? ==> forall i | 0 <= i < |r.value| ::
                ProcLine(r.value[i]) && CallsUnder(procName.value, r.value[i])
      ensures r == Returned(ProcBodySpec(input, old(View()), []))
      ensures r.Ok? ==> View() == ProcBodySpec(input, old(View()), []).value.1
    {
      var lines: seq<Ast.Node> := [];
      while current.kind != EndpWord
        invariant Valid() && pos >= 2 && procName == old(procName) && old(pos) <= pos
        invariant forall i | 0 <= i < |lines| :: ProcLine(lines[i]) && CallsUnder(procName.value, lines[i])
        invariant ProcBodySpec(input, View(), lines) == ProcBodySpec(input, old(View()), [])
        decreases Remaining()
      {
        var before := pos;
        var line := ParseProcLine();
        if line.Fail? {
          return Fail(line.failure);
        }
        if line.value.Some? {
          lines := lines + [line.value.value];
        }
        if current.kind == Eof {
          return Fail(Fatal);
        }
        if pos == before {
          return Fail(Spins);
        }
      }
      r := Ok(lines);
    }

    /** `tasm_parse_proc`: PROC, its name, the body, ENDP and the end of the
        line. The name is current while the body is parsed and cleared
        afterwards. */
    method ParseProc() returns (r: Outcome<Ast.Node>)
      requires Valid() && current.kind == ProcWord
      modifies this
      ensures Valid() && old(pos) < pos
      ensures old(next).kind != Id ==> r == Fail(Fatal)
      ensures r.Ok? ==> procName.None? && TopLine(r.value)
      ensures r.Ok? ==> r.value.Proc? && r.value.procName == old(next).value
      ensures r.Ok? ==> prev.kind == Eof || prev.kind == EndLine
      ensures r == Returned(ProcSpec(input, old(View())))
      ensures r.Ok? ==> View() == ProcSpec(input, old(View())).value.1
    {
      ghost var w := View();
      var ok := Eat(ProcWord);
      ghost var w1 := View();
      var name := current.value;
      procName := Some(name);
      ok := Eat(Id);
      if !ok {
        return Fail(Fatal);
      }
      ghost var wb := View();
      assert wb == Shift(input, w1.(procName := Some(name)));
      var lines := ParseProcBody();
      if lines.Fail? {
        return Fail(lines.failure);
      }
      ghost var v := ProcBodySpec(input, wb, []).value.1;
      ok := Eat(EndpWord);
      procName := None;
      assert View() == Shift(input, v).(procName := None);
      var node := Ast.Proc(name, lines.value);
      ok := ExpectEndOfLine();
      if !ok {
        return Fail(Fatal);
      }
      r := Ok(node);
    }

    /** `tasm_parse_line`: a label declaration, then a procedure, then an
        instruction, in that order; a stray ID is fatal; otherwise the
        separators are skipped and there is no line. */
    method ParseLine() returns (r: Outcome<Option<Ast.Node>>)
      requires Valid() && procName.None?
      modifies this
      ensures Valid() && old(pos) <= pos
      ensures r.Ok? ==> procName.None?
      ensures r.Ok? && pos == old(pos) ==> r.value.None? && View() == old(View())
      ensures r.Ok? && r.value.Some? ==> TopLine(r.value.value)
      ensures old(current).kind == Id && old(next).kind == Colon ==>
                r == Ok(Some(Ast.LabelDecl(old(current).value)))
      ensures old(current).kind == Id && old(next).kind != Colon ==> r == Fail(Fatal)
      ensures old(current).kind == ProcWord && r.Ok? ==> r.value.Some? && r.value.value.Proc?
      ensures old(current).kind.Op? && r.Ok? ==> r.value.Some? && r.value.value.Inst?
      ensures r.Ok? && r.value.None? ==> View() == Separators(input, old(View()))
      ensures r == Returned(LineSpec(input, old(View())))
      ensures r.Ok? ==> View() == LineSpec(input, old(View())).value.1
    {
      if current.kind == Id && next.kind == Colon {
        var decl := ParseLabelDecl();
        return if decl.Ok? then Ok(Some(decl.value)) else Fail(Fatal);
      }
      if current.kind == ProcWord {
        var proc := ParseProc();
        return if proc.Ok? then Ok(Some(proc.value)) else Fail(proc.failure);
      }
      if current.kind.Op? {
        var inst := ParseInstruction();
        return if inst.Ok? then Ok(Some(inst.value)) else Fail(inst.failure);
      }
      if current.kind == Id {
        return Fail(Fatal);
      }
      SkipSeparators();
      r := Ok(None);
    }

    /** `tasm_parse_file`: eat the initial TOKEN_NONE, then collect the lines
        that are not NULL until the current token is EOF. */
    method ParseFile() returns (r: Outcome<Ast.Node>)
      requires Valid() && procName.None?
      modifies this
      ensures Valid()
      ensures old(current).kind != NoToken ==> r == Fail(Fatal)
      ensures r.Ok? ==> r.value.File? && current.kind == Eof && procName.None?
      ensures r.Ok? ==> forall i | 0 <= i < |r.value.lines| :: TopLine(r.value.lines[i])
      ensures r.Ok? ==> Ast.OperandsPresent(r.value)
      ensures r == Returned(FileSpec(input, old(View())))
      ensures r.Ok? ==> View() == FileSpec(input, old(View())).value.1
    {
      var ok := Eat(NoToken);
      if !ok {
        return Fail(Fatal);
      }
      ghost var w0 := View();
      var lines: seq<Ast.Node> := [];
      while current.kind != Eof
        invariant Valid() && pos >= 2 && procName.None?
        invariant forall i | 0 <= i < |lines| :: TopLine(lines[i])
        invariant FileLinesSpec(input, View(), lines) == FileLinesSpec(input, w0, [])
        decreases Remaining()
      {
        var before := pos;
        var line := ParseLine();
        if line.Fail? {
          return Fail(line.failure);
        }
        if line.value.Some? {
          lines := lines + [line.value.value];
        }
        if pos == before {
          return Fail(Spins);
        }
      }
      FileHasOperands(lines);
      r := Ok(Ast.File(lines));
    }
  }
}
