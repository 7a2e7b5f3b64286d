# tile-vm in Dafny

A model of the core of tile-vm: the two stack virtual machines, the `tasm`
assembler front end (lexer, parser and the two-pass translator to VM
opcodes), the command-line parsers, the chained bump arena and the 32-bit
byte swap. Each C file is modelled as it works, with one exception: the
translator's JMP, JZ and JNZ to a label use the corrected lookup of the
finding below, and "## Left out" names every member that inherits it.
Pure specification functions describe one step, one pass or one parse.
Classes over arrays and sequences keep the C fields. Each method is
proved equal to its specification function, and lemmas prove the listed
properties of those functions.

| file | module | models |
|---|---|---|
| `words.dfy` | `Words` | 32-bit words, two's-complement views, C `/` and `%` |
| `wrappers.dfy` | `Wrappers` | `Option` |
| `tdef.dfy` | `Tdef` | `swap_endian_uint32`, `swap_endian_int32` |
| `tvm.dfy` | `Tvm` | `include/tvm/tvm.h`: state, `tvm_exec_opcode` as `Step`, `tvm_run` as `Run`, class `Machine` over arrays |
| `tvm_legacy.dfy` | `TvmLegacy` | `include/tvm.h`, the older VM used by `src/tvm.c` |
| `tasm_token.dfy` | `TasmToken` | token kinds, kept abstract: `Op(k)` is the k-th instruction token |
| `tasm_lexer.dfy` | `TasmLexer` | `include/tasm/tasm_lexer.h`: scanning functions and class `Lexer` |
| `tasm_ast.dfy` | `TasmAst` | the AST tags and payloads of `include/tasm/tasm_ast.h` |
| `tasm_parser.dfy` | `TasmParser` | `include/tasm/tasm_parser.h`: class `Parser` over a token sequence |
| `tasm_translator.dfy` | `TasmTranslator` | `include/tasm/tasm_translator.h`: the symbol passes and code generation, and class `Translator` over arrays |
| `cli.dfy` | `Cli` | `include/common/cli.h`: option scanning, and classes `CommandLine` and `ParsedArgs` |
| `arena.dfy` | `Arena` | `include/common/arena.h`: blocks numbered by creation; a handle and each link is a block number and an allocation is a block and an offset |

Integer slots hold 32 raw bits (`u32`). Signed arithmetic wraps modulo
2^32, which is the two's-complement result of the C code where it does not
overflow. C signed overflow is undefined, and the model takes the wrapped
result. Where C behaviour is undefined, the model says so explicitly:
- a fetch past the code array;
- an unchecked store past the stack;
- an uninitialised tag in the parser's JZ case;
- a loop that never ends.

These are the `Undefined`, `Hangs` and `Spins` outcomes, or a precondition
on the method that would reach them.

"The step frame" below is what every VM step promises (`Conforms` in
`tvm.dfy`, and its counterpart in `tvm_legacy.dfy`):
- the state stays well formed;
- a fault changes nothing;
- the program is never written;
- on success, `sp` and `rsp` move by the opcode's fixed deltas;
- every opcode other than a jump, call or return advances `ip` by one;
- only HALT sets `halted`.

## Model

| member | source | states |
|---|---|---|
| Words.Wrap | include/tvm/tvm.h:77-87 | the result is the integer reduced modulo 2^32 and is the input itself when it already fits |
| Words.ToSigned | include/tvm/tvm.h:77-87 | the `i32` reading of 32 bits lies in the int32 range and wraps back to the same bits |
| Words.FromSigned | include/tvm/tvm.h:77-87 | storing an int32 value and reading it back as `i32` gives the value |
| Words.CDiv | include/tvm/tvm.h:324-334 | C's `/` truncates toward zero: abs(q)*abs(b) <= abs(a) < (abs(q)+1)*abs(b), q >= 0 when a and b have the same sign and q <= 0 otherwise |
| Words.CRem | include/tvm/tvm.h:335-345 | C's `%`: a == q*b + r with truncating q, abs(r) < abs(b), and the sign of r follows a |
| Tdef.ByteOf | include/common/tdef.h:39-42 | a byte extracted from a word is below 0x100 |
| Tdef.SwapEndianU32 | include/common/tdef.h:34-50 | output bytes 0..3 are input bytes 3..0 |
| Tdef.SwapReversesBytes | include/common/tdef.h:39-48 | output byte i equals input byte 3-i, for every i < 4 |
| Tdef.BuiltinAgreesWithShifts | include/common/tdef.h:35-49 | the `__builtin_bswap32` path and the shift-and-mask path compute the same word |
| Tdef.SwapInvolution | include/common/tdef.h:39-48 | swapping twice gives back the input |
| Tdef.SwapExample | include/common/tdef.h:29-42 | 0x01234567 becomes 0x67452301 |
| Tdef.SwapEndianI32 | include/common/tdef.h:52-54 | the bits of the signed swap are the input's bytes in reverse order (output byte i is input byte 3-i), so the result is negative exactly when the input's low byte has its top bit set |
| Tdef.SwapI32Involution | include/common/tdef.h:52-54 | swapping an int32 twice gives back the input |
| Tvm.ExceptionToCstr | include/tvm/tvm.h:238-258 | every exception's name starts with `EXCEPT_` and has more after it |
| Tvm.ExceptionNamesDistinct | include/tvm/tvm.h:238-258 | `exception_to_cstr` gives distinct exceptions distinct names |
| Tvm.OrdinalOfOpTypeOf | include/tvm/tvm.h:31-75 | every raw opcode value decodes to an enumerator that encodes back to the same value |
| Tvm.OpTypeOfOrdinal | include/tvm/tvm.h:31-75 | every well-formed enumerator survives encode then decode, so the 40 values are distinct |
| Tvm.Exchange | include/tvm/tvm.h:366-375 | exchanging two slots keeps the stack length |
| Tvm.StepBinary | include/tvm/tvm.h:297-410 | ADD..DIVF conform to the step frame and never raise INVALID_INSTRUCTION |
| Tvm.StepDup | include/tvm/tvm.h:346-354 | DUP conforms to the step frame |
| Tvm.StepCln | include/tvm/tvm.h:355-365 | CLN conforms to the step frame |
| Tvm.StepSwap | include/tvm/tvm.h:366-375 | SWAP conforms to the step frame |
| Tvm.StepUnary | include/tvm/tvm.h:412-510 | INC..DECF and the casts conform to the step frame |
| Tvm.StepJmp | include/tvm/tvm.h:436-441 | JMP conforms to the step frame |
| Tvm.StepCondJump | include/tvm/tvm.h:442-461 | JZ and JNZ conform to the step frame |
| Tvm.StepCall | include/tvm/tvm.h:462-469 | CALL conforms to the step frame |
| Tvm.StepRet | include/tvm/tvm.h:470-474 | RET conforms to the step frame |
| Tvm.StepCompare | include/tvm/tvm.h:511-630 | GT..LEF conform to the step frame |
| Tvm.Step | include/tvm/tvm.h:284-641 | any opcode keeps the state well formed, a fault leaves the state unchanged, and the result is INVALID_INSTRUCTION exactly for an unknown opcode |
| Tvm.Run | include/tvm/tvm.h:643-652 | the run ends Exited exactly when the loop condition fails, faults only with a real exception, keeps the code, and traces each executed opcode |
| Tvm.RunStops | include/tvm/tvm.h:643-644 | a run stops unchanged when halted or ip > size, when out of fuel, or when the next fetch is undefined |
| Tvm.RunOneStep | include/tvm/tvm.h:644-650 | a loop turn either ends on the step's exception or continues from the step's state |
| Tvm.RunStackDiscipline | include/tvm/tvm.h:284-652 | over a whole run, sp and rsp move by the sums of the per-opcode deltas of the executed opcodes |
| Tvm.ReturnDeltaCountsCalls | include/tvm/tvm.h:462-474 | the return-stack change of a trace is its CALL count minus its RET count |
| Tvm.IntArithStep | include/tvm/tvm.h:297-345 | ADD/SUB/MULT, and DIV/MOD with a nonzero divisor: slot sp-2 gets second op top, sp-1, ip+1, nothing else changes |
| Tvm.BinaryFaults | include/tvm/tvm.h:297-345 | underflow before overflow before division by zero, each leaving the state unchanged |
| Tvm.DupStep | include/tvm/tvm.h:346-354 | DUP pushes the top's bits and keeps the slots below |
| Tvm.ClnStep | include/tvm/tvm.h:355-365 | CLN n with n >= sp is INVALID_STACK_ACCESS; otherwise a copy of stack[sp-n-1] is pushed |
| Tvm.SwapStep | include/tvm/tvm.h:366-375 | SWAP n exchanges stack[sp-1] and stack[sp-n-1] and keeps sp |
| Tvm.ExchangeTwice | include/tvm/tvm.h:371-373 | exchanging the same two slots twice restores the sequence |
| Tvm.SwapTwiceRestoresStack | include/tvm/tvm.h:366-375 | the same SWAP executed twice restores the stack |
| Tvm.JmpStep | include/tvm/tvm.h:436-441 | JMP to a target below size jumps; any other target is INVALID_INSTRUCTION_ACCESS with no change |
| Tvm.CondJumpStep | include/tvm/tvm.h:442-461 | JZ/JNZ: empty stack underflows; bad target faults; otherwise jump iff top == 0 (JZ) or != 0 (JNZ), and the top is not popped |
| Tvm.CallFaults | include/tvm/tvm.h:462-469 | CALL with a full return stack overflows and with a bad target faults; neither touches the return stack |
| Tvm.CallThenRet | include/tvm/tvm.h:462-474 | CALL pushes ip+1 and jumps; a RET right after resumes at the call's ip+1 with rsp restored |
| Tvm.RetUnderflow | include/tvm/tvm.h:470-474 | RET with rsp = 0 is STACK_UNDERFLOW |
| Tvm.CompareStep | include/tvm/tvm.h:511-622 | GT/LT/EQ/GE/LE push 1 iff (top op second), else 0, keep both operands, and grow sp by 1 |
| Tvm.HaltStep | include/tvm/tvm.h:631-634 | HALT sets halted and advances ip |
| Tvm.PushStep | include/tvm/tvm.h:293-296 | PUSH stores the operand, tag included, at slot sp |
| Tvm.InitialState | include/tvm/tvm.h:263-282 | `tvm_init` gives empty stacks, ip 0, not halted, size 0 |
| Tvm.LoadProgram | include/tvm/tvm.h:171-174 | loading sets size and the first opcodes and leaves the rest of the state alone |
| Tvm.RunPastEnd | include/tvm/tvm.h:643-650 | a HALT-less run reaching ip == size executes the zeroed OP_NOP there and then exits |
| Tvm.RunPush | include/tvm/tvm.h:293-296 | a PUSH inside the program is one successful loop turn |
| Tvm.TwoPushes | include/tvm/tvm.h:293-296 | two leading PUSHes fill slots 0 and 1 |
| Tvm.LoadedProgram | include/tvm/tvm.h:171-174 | the two sample programs load into a ready machine as given |
| Tvm.AddThenHalt | include/tvm/tvm.h:297-305 | ADD then HALT with 3 and 5 leaves 8 and halts |
| Tvm.AddProgramHalts | include/tvm/tvm.h:284-652 | [PUSH 3, PUSH 5, ADD, HALT] halts after four steps with sp 1 and 8 on the stack |
| Tvm.DivByZeroProgramFaults | include/tvm/tvm.h:324-334 | [PUSH 5, PUSH 0, DIV, HALT] faults with DIVISION_BY_ZERO at the DIV |
| Tvm.CallOutOfRangeFaults | include/tvm/tvm.h:462-469 | a CALL whose target is past the program faults with INVALID_INSTRUCTION_ACCESS |
| Tvm.Machine.Snapshot | include/tvm/tvm.h:136-147 | the array-backed fields read as a well-formed state |
| Tvm.Machine.Init | include/tvm/tvm.h:263-282 | the constructor's state is `InitialState()` |
| Tvm.Machine.LoadProgramFromMemory | include/tvm/tvm.h:171-174 | the copying loop leaves the state `LoadProgram(old state, program)` |
| Tvm.Machine.ExecBinary | include/tvm/tvm.h:297-410 | the in-place update equals `StepBinary` |
| Tvm.Machine.ExecDup | include/tvm/tvm.h:346-354 | the in-place update equals `StepDup` |
| Tvm.Machine.ExecCln | include/tvm/tvm.h:355-365 | the in-place update equals `StepCln` |
| Tvm.Machine.ExecSwap | include/tvm/tvm.h:366-375 | the in-place update equals `StepSwap` |
| Tvm.Machine.ExecUnary | include/tvm/tvm.h:412-510 | the in-place update equals `StepUnary` |
| Tvm.Machine.ExecJmp | include/tvm/tvm.h:436-441 | the in-place update equals `StepJmp` |
| Tvm.Machine.ExecCondJump | include/tvm/tvm.h:442-461 | the in-place update equals `StepCondJump` |
| Tvm.Machine.ExecCall | include/tvm/tvm.h:462-469 | the in-place update equals `StepCall` |
| Tvm.Machine.ExecRet | include/tvm/tvm.h:470-474 | the in-place update equals `StepRet` |
| Tvm.Machine.ExecCompare | include/tvm/tvm.h:511-630 | the in-place update equals `StepCompare` |
| Tvm.Machine.ExecOpcode | include/tvm/tvm.h:284-641 | the in-place update and the exception equal `Step` |
| Tvm.Machine.Turn | include/tvm/tvm.h:644-650 | one loop turn either stops with `Run`'s outcome or leaves a state whose run with less fuel is the same run |
| Tvm.Machine.RunLoop | include/tvm/tvm.h:643-652 | the while loop ends with `Run`'s outcome and final state |
| TvmLegacy.ExceptionToCstr | include/tvm.h:103-121 | every exception's name starts with `EXCEPT_` and has more after it |
| TvmLegacy.ExceptionNamesDistinct | include/tvm.h:103-121 | the five exceptions have distinct names |
| TvmLegacy.StepArith | include/tvm.h:147-195 | ADD..MOD keep the state well formed and a fault changes nothing |
| TvmLegacy.Step | include/tvm.h:134-235 | any opcode conforms to the step frame; INVALID_INSTRUCTION exactly for an unknown opcode |
| TvmLegacy.Run | include/tvm.h:237-246 | ends Exited exactly when the loop condition fails, faults only with a real exception, keeps the program |
| TvmLegacy.RunStops | include/tvm.h:238 | a run stops unchanged when halted or ip > size, out of fuel, or at an undefined fetch |
| TvmLegacy.RunOneStep | include/tvm.h:238-245 | a loop turn ends on the step's exception or continues from its state |
| TvmLegacy.PushStep | include/tvm.h:143-146 | PUSH stores at stack[sp] and advances sp and ip, with no capacity check |
| TvmLegacy.ArithStep | include/tvm.h:147-195 | with 2 <= sp < capacity and a nonzero divisor, slot sp-2 gets the result and sp decreases by 1 |
| TvmLegacy.ArithFaults | include/tvm.h:147-195 | underflow, then overflow, then division by zero, each leaving the state unchanged |
| TvmLegacy.StubStep | include/tvm.h:196-223 | DUP, JMP and JNZ only advance ip |
| TvmLegacy.FloatStubStep | include/tvm.h:200-215 | ADDF..DIVF return OK and change nothing, not even ip |
| TvmLegacy.FloatStubSpins | include/tvm.h:200-238 | so a run reaching one of them never gets past it |
| TvmLegacy.HaltStep | include/tvm.h:224-227 | HALT sets halted and advances ip |
| TvmLegacy.InitialState | include/tvm.h:123-132 | empty stack, ip 0, not halted, size 0 |
| TvmLegacy.LoadProgram | include/tvm.h:85-88 | size and the first opcodes are set and the rest is untouched |
| TvmLegacy.DemoLoaded | src/tvm.c:4-16 | the demo program loads as given |
| TvmLegacy.DemoPushes | include/tvm.h:143-146 | the demo's two PUSHes leave 3 and 5 in slots 0 and 1 |
| TvmLegacy.DemoAddHalt | include/tvm.h:147-227 | the demo's ADD and HALT leave 8 and halt |
| TvmLegacy.DemoProgramHalts | src/tvm.c:4-17 | [PUSH 3, PUSH 5, ADD, HALT] ends halted with sp 1 and stack[0] 8 |
| TvmLegacy.Machine.Snapshot | include/tvm.h:43-52 | the array-backed fields read as a well-formed state |
| TvmLegacy.Machine.Init | include/tvm.h:123-132 | the constructor's state is `InitialState()` |
| TvmLegacy.Machine.LoadProgramFromMemory | include/tvm.h:85-88 | the copy leaves `LoadProgram(old state, code)` |
| TvmLegacy.Machine.ExecArith | include/tvm.h:147-195 | the in-place update equals `StepArith` |
| TvmLegacy.Machine.ExecOpcode | include/tvm.h:134-235 | the in-place update equals `Step` |
| TvmLegacy.Machine.Turn | include/tvm.h:238-245 | one loop turn stops with `Run`'s result or continues the same run |
| TvmLegacy.Machine.RunLoop | include/tvm.h:237-246 | the loop ends with `Run`'s outcome and final state |
| TasmLexer.ScanWhile | include/tasm/tasm_lexer.h:81-172 | an advance loop stops at the first position whose character fails the test, or at the end |
| TasmLexer.LowerSpellingIndex | include/tasm/tasm_lexer.h:181-193 | each lower-case table word is found at its own index |
| TasmLexer.UpperSpellingIndex | include/tasm/tasm_lexer.h:195-205 | each upper-case table word is found at its own index, after the lower-case table |
| TasmLexer.TablesInjective | include/tasm/tasm_lexer.h:181-205 | no spelling occurs twice in the two tables |
| TasmLexer.FirstOp | include/tasm/tasm_lexer.h:153-217 | the keyword loop finds the first table index whose spelling matches, or none |
| TasmLexer.Classify | include/tasm/tasm_lexer.h:151-162 | an instruction kind is given only to a table word; otherwise PROC, ENDP or ID |
| TasmLexer.ClassifyTableWord | include/tasm/tasm_lexer.h:153-217 | the lower- and the upper-case spelling at index k give the k-th instruction token |
| TasmLexer.ClassifyOpIff | include/tasm/tasm_lexer.h:153-217 | a word is the k-th instruction token exactly when it is one of the two spellings at k |
| TasmLexer.TableCase | include/tasm/tasm_lexer.h:181-205 | the lower table has no upper-case letter and the upper table no lower-case letter |
| TasmLexer.MixedCaseIsIdentifier | include/tasm/tasm_lexer.h:151-162 | a mixed-case word is an identifier |
| TasmLexer.UnlistedWordIsNotOp | include/tasm/tasm_lexer.h:153-156 | a word in neither table is no instruction token |
| TasmLexer.KeywordWords | include/tasm/tasm_lexer.h:157-160 | "proc" is PROC and "endp" is ENDP |
| TasmLexer.IdAt | include/tasm/tasm_lexer.h:139-163 | `collect_id` takes the maximal alphanumeric run, classifies it, and overflows `temp_val` exactly at 128 characters or more |
| TasmLexer.NumberAt | include/tasm/tasm_lexer.h:165-179 | `collect_number` takes the maximal digit run as a NUMBER token, and overflows exactly at 128 digits or more |
| TasmLexer.OneCharAt | include/tasm/tasm_lexer.h:111-137 | the cursor never moves back or past the end, and stays put exactly for the EOF and NONE tokens |
| TasmLexer.NextToken | include/tasm/tasm_lexer.h:94-109 | the cursor never moves back or past the end, and every token but EOF and NONE consumes at least one character after the blanks |
| TasmLexer.NextTokenSkipsBlanks | include/tasm/tasm_lexer.h:81-95 | after skipping, the current character is neither blank nor tab |
| TasmLexer.NumberTokenIsMaximal | include/tasm/tasm_lexer.h:94-179 | a NUMBER token is a non-empty digit run followed by a non-digit |
| TasmLexer.WordTokenIsMaximal | include/tasm/tasm_lexer.h:94-163 | an identifier or keyword token is a letter then alphanumerics, followed by a non-alphanumeric |
| TasmLexer.OneCharTokens | include/tasm/tasm_lexer.h:102-137 | '\n', ':' and '\'' advance one character; ';' skips to the newline; EOF and NONE do not move; a comment at the end of the text hangs |
| TasmLexer.Lexer.constructor | include/tasm/tasm_lexer.h:47-61 | cursor 0, row 0, column 0 on the given text |
| TasmLexer.Lexer.Advance | include/tasm/tasm_lexer.h:67-79 | a newline bumps row and resets col; otherwise the window shifts while cursor < size and col grows |
| TasmLexer.Lexer.SkipWhitespace | include/tasm/tasm_lexer.h:81-86 | the cursor moves past the blanks and the current character is not blank |
| TasmLexer.Lexer.SkipLine | include/tasm/tasm_lexer.h:88-92 | the cursor stops on a newline or EOF; the loop hangs exactly when it reaches the end of the text |
| TasmLexer.Lexer.CollectOneChars | include/tasm/tasm_lexer.h:111-137 | the result and cursor equal `OneCharAt` |
| TasmLexer.Lexer.CollectWhile | include/tasm/tasm_lexer.h:142-172 | the loop stops at `ScanWhile` and collects exactly the characters passed |
| TasmLexer.Lexer.KeywordKind | include/tasm/tasm_lexer.h:153-162 | equals `Classify` |
| TasmLexer.Lexer.CollectId | include/tasm/tasm_lexer.h:139-163 | the result and cursor equal `IdAt` |
| TasmLexer.Lexer.CollectNumber | include/tasm/tasm_lexer.h:165-179 | the result and cursor equal `NumberAt` |
| TasmLexer.Lexer.GetNextToken | include/tasm/tasm_lexer.h:94-109 | the result and cursor equal `NextToken` |
| TasmParser.Separators | include/tasm/tasm_parser.h:135-140 | the optional ENDLINE/COMMENT/EOF eats take at most three tokens and take none exactly when the current token is none of them |
| TasmParser.SpaceRun | include/tasm/tasm_parser.h:387 | `atoi`'s skip of leading white space: every character before the run's end is `isspace` and the next one, if any, is not |
| TasmParser.DigitRun | include/tasm/tasm_parser.h:387 | `atoi`'s digit run: every character before its end is a decimal digit and the next one, if any, is not |
| TasmParser.DecimalValue | include/tasm/tasm_parser.h:387 | a string of decimal digits denotes a non-negative number |
| TasmParser.Atoi | include/tasm/tasm_parser.h:387 | the libc `atoi` the NUMBER literal calls: negative only when a `-` follows the white space, 0 on white space alone; `AtoiOfDigits` and `AtoiOfNumeral` give its value on digit strings and numerals |
| TasmParser.Numeral | include/tasm/tasm_parser.h:387 | a number's decimal spelling is a non-empty digit string |
| TasmParser.DecimalValueOfNumeral | include/tasm/tasm_parser.h:387 | the digits of a numeral denote the number |
| TasmParser.AtoiOfDigits | include/tasm/tasm_parser.h:387 | `atoi` of a digit string is its decimal value |
| TasmParser.RunOfDigits | include/tasm/tasm_parser.h:387 | a digit string is all digits and has no leading space |
| TasmParser.AtoiOfNumeral | include/tasm/tasm_parser.h:387 | `atoi` inverts the decimal spelling, with or without a minus sign |
| TasmParser.Renamed | include/tasm/tasm_parser.h:315-323 | inside a procedure a label-call operand becomes the procedure's name directly followed by the label's, with no separator; any other operand, or any operand outside a procedure, is unchanged |
| TasmParser.NumberLiteral | include/tasm/tasm_parser.h:381-390 | a NUMBER node keeps the token text and, for a numeral of m, holds m wrapped to 32 bits |
| TasmParser.InstructionTag | include/tasm/tasm_parser.h:230-312 | every instruction token but JZ gets the tag of the same opcode; JZ gets none |
| TasmParser.TopLineHasOperands | include/tasm/tasm_parser.h:240-313 | every instruction in a parsed line carries the operand its opcode needs |
| TasmParser.FileHasOperands | include/tasm/tasm_parser.h:81-95 | so does every line of a parsed file |
| TasmParser.OperandSpec | include/tasm/tasm_parser.h:340-401 | no operand when the current token cannot start one; otherwise the literal built from the token (three tokens for a character, one otherwise), and a malformed character literal is fatal |
| TasmParser.InstOperandSpec | include/tasm/tasm_parser.h:240-324 | the operand fits the opcode's form and is renamed inside a procedure; a missing required operand is fatal |
| TasmParser.InstSpec | include/tasm/tasm_parser.h:230-338 | an instruction line with the token's tag and name, ending after EOF or ENDLINE, with calls renamed under the open procedure; JZ never succeeds and is the only undefined outcome |
| TasmParser.ProcLineSpec | include/tasm/tasm_parser.h:145-164 | a label declaration or an instruction; a nested PROC and a stray ID are fatal; otherwise the separators are skipped and there is no line |
| TasmParser.ProcBodySpec | include/tasm/tasm_parser.h:183-189 | a body that parses ends on ENDP |
| TasmParser.BodyTurnSpec | include/tasm/tasm_parser.h:184-188 | one loop turn and the rest ends on ENDP; EOF inside the body is fatal and a line that consumes nothing spins |
| TasmParser.ProcBodyLines | include/tasm/tasm_parser.h:183-189 | the body loop keeps the lines it has and only adds body lines of the open procedure |
| TasmParser.ProcSpec | include/tasm/tasm_parser.h:176-208 | a PROC node named by the ID after `proc`, holding top-level lines, ending after EOF or ENDLINE with no open procedure; no ID after `proc` is fatal |
| TasmParser.LineSpec | include/tasm/tasm_parser.h:124-143 | label declaration, then procedure, then instruction, in that order; a stray ID is fatal; otherwise the separators are skipped and there is no line |
| TasmParser.FileLinesSpec | include/tasm/tasm_parser.h:84-88 | the file loop, when it ends, ends on EOF with no open procedure |
| TasmParser.FileTurnSpec | include/tasm/tasm_parser.h:84-88 | one loop turn and the rest ends on EOF; a line that consumes nothing spins |
| TasmParser.FileLinesTop | include/tasm/tasm_parser.h:84-88 | the file loop keeps the lines it has and only adds top-level lines |
| TasmParser.FileSpec | include/tasm/tasm_parser.h:81-95 | a missing leading NONE token is fatal; a FILE node of top-level lines that carry their operands, ending on EOF |
| TasmParser.TokenIndex | include/tasm/tasm_parser.h:240-312 | the instruction token whose case of the switch gives the opcode, with that opcode's operand form |
| TasmParser.OperandParses | include/tasm/tasm_parser.h:340-401 | the tokens of an operand that fits its form parse back to that operand, consuming exactly those tokens |
| TasmParser.InstParses | include/tasm/tasm_parser.h:230-338 | the tokens of a well-formed instruction line parse back to that instruction, consuming exactly its tokens |
| TasmParser.ProcLineParses | include/tasm/tasm_parser.h:145-164 | the tokens of a well-formed body line parse back to that line |
| TasmParser.BodyParses | include/tasm/tasm_parser.h:183-189 | the tokens of well-formed body lines followed by ENDP parse back to those lines, in order |
| TasmParser.ProcParses | include/tasm/tasm_parser.h:176-208 | the tokens of a well-formed procedure parse back to that procedure |
| TasmParser.LabelLineParses | include/tasm/tasm_parser.h:124-126 | the tokens of a label declaration parse back to it |
| TasmParser.InstLineParses | include/tasm/tasm_parser.h:129-130 | the tokens of a top-level instruction parse back to it |
| TasmParser.ProcLineOfFileParses | include/tasm/tasm_parser.h:127-128 | the tokens of a top-level procedure parse back to it |
| TasmParser.LineParses | include/tasm/tasm_parser.h:124-143 | the tokens of any well-formed top-level line parse back to that line, consuming exactly its tokens |
| TasmParser.FileLinesParses | include/tasm/tasm_parser.h:84-88 | the tokens of well-formed lines, up to EOF, make the file loop collect exactly those lines, in order |
| TasmParser.ParseFileReadsBack | include/tasm/tasm_parser.h:81-95 | reading back: the tokens of a file of well-formed lines parse to exactly that file, ending on the EOF after them |
| TasmParser.Parser.constructor | include/tasm/tasm_parser.h:48-56 | both window slots before the first token are empty and no procedure is open |
| TasmParser.Parser.Eat | include/tasm/tasm_parser.h:62-79 | a match shifts the window by one token; a mismatch is fatal and leaves it |
| TasmParser.Parser.ExpectEndOfLine | include/tasm/tasm_parser.h:326-330 | succeeds exactly when the optional COMMENT and then EOF or ENDLINE are there |
| TasmParser.Parser.SkipSeparators | include/tasm/tasm_parser.h:135-162 | the window becomes `Separators` of the old window |
| TasmParser.Parser.ParseLabelDecl | include/tasm/tasm_parser.h:97-174 | succeeds exactly on ID COLON and builds a LABEL_DECL of the ID |
| TasmParser.Parser.ParseNumLit | include/tasm/tasm_parser.h:381-390 | succeeds exactly on NUMBER and builds `NumberLiteral` of its text |
| TasmParser.Parser.ParseCharLit | include/tasm/tasm_parser.h:392-401 | succeeds on APOST ID APOST and builds a CHAR of the ID's text |
| TasmParser.Parser.ParseLabelCall | include/tasm/tasm_parser.h:372-379 | succeeds exactly on ID and builds a LABEL_CALL of it |
| TasmParser.Parser.ParseOperand | include/tasm/tasm_parser.h:340-369 | the result and the new window equal `OperandSpec` of the old window |
| TasmParser.Parser.ParseInstructionOperand | include/tasm/tasm_parser.h:240-324 | the result and the new window equal `InstOperandSpec`: the operand fits the opcode's fixed shape, and a missing required operand is fatal |
| TasmParser.Parser.ParseInstruction | include/tasm/tasm_parser.h:230-338 | the result and the new window equal `InstSpec`: an INST node with the token's tag, name and fitting operand, renamed inside a procedure; JZ is undefined |
| TasmParser.Parser.ParseProcLine | include/tasm/tasm_parser.h:145-164 | the result and the new window equal `ProcLineSpec` |
| TasmParser.Parser.ParseProcBody | include/tasm/tasm_parser.h:183-189 | the loop's result and the new window equal `ProcBodySpec`: the body lines up to ENDP, each a procedure line |
| TasmParser.Parser.ParseProc | include/tasm/tasm_parser.h:176-208 | the result and the new window equal `ProcSpec`, with the open procedure cleared afterwards |
| TasmParser.Parser.ParseLine | include/tasm/tasm_parser.h:124-143 | the result and the new window equal `LineSpec`: label declaration, then procedure, then instruction, in that order |
| TasmParser.Parser.ParseFile | include/tasm/tasm_parser.h:81-95 | the loop's result and the new window equal `FileSpec`; with `ParseFileReadsBack`, the tokens of well-formed lines parse to exactly those lines |
| TasmTranslator.Find | include/tasm/tasm_translator.h:505-530 | -1 exactly when no entry has the name; otherwise an address the table pairs with the name |
| TasmTranslator.FindFirst | include/tasm/tasm_translator.h:505-530 | the lookup returns the address of the first entry with the name |
| TasmTranslator.FindAppend | include/tasm/tasm_translator.h:505-530 | appending entries does not change a lookup that already succeeds |
| TasmTranslator.FindInUnique | include/tasm/tasm_translator.h:505-530 | in a table without duplicate names, a lookup returns the entry's own address |
| TasmTranslator.CountLinesStep | include/tasm/tasm_translator.h:360-442 | the count over lines grows by each line's count |
| TasmTranslator.CountLinesPrefix | include/tasm/tasm_translator.h:360-364 | the count over a prefix is at most the whole count |
| TasmTranslator.RoomForNext | include/tasm/tasm_translator.h:360-364 | the table room needed so far plus the next line's stays within the whole count |
| TasmTranslator.LabelsNode | include/tasm/tasm_translator.h:356-427 | a label pass that passes only appends to the table and never lowers the address counter |
| TasmTranslator.LabelsLines | include/tasm/tasm_translator.h:360-364 | the same over a sequence of lines |
| TasmTranslator.ProcsNode | include/tasm/tasm_translator.h:434-499 | a procedure pass that passes only appends to the table and never lowers the address counter |
| TasmTranslator.ProcsLines | include/tasm/tasm_translator.h:438-442 | the same over a sequence of lines |
| TasmTranslator.LabelsCount | include/tasm/tasm_translator.h:356-427 | the label pass adds one per counted instruction and one entry per label declaration |
| TasmTranslator.LabelsLinesCount | include/tasm/tasm_translator.h:360-364 | the same over a sequence of lines |
| TasmTranslator.ProcsCount | include/tasm/tasm_translator.h:434-499 | the proc pass adds one per counted instruction and one entry per procedure |
| TasmTranslator.ProcsLinesCount | include/tasm/tasm_translator.h:438-442 | the same over a sequence of lines |
| TasmTranslator.LabelsLinesStop | include/tasm/tasm_translator.h:360-416 | after a duplicate, the remaining lines are not visited |
| TasmTranslator.ProcsLinesStop | include/tasm/tasm_translator.h:438-486 | after a duplicate, the remaining lines are not visited |
| TasmTranslator.PassesAgree | include/tasm/tasm_translator.h:365-473 | both passes count the same tags, so the label and proc address pointers agree |
| TasmTranslator.ProcRecordedBeforeBody | include/tasm/tasm_translator.h:475-495 | a procedure is recorded at the counter before its body; a duplicate name aborts without an entry |
| TasmTranslator.LabelsNames | include/tasm/tasm_translator.h:397-427 | the label table gains exactly the qualified declared names and holds no duplicate |
| TasmTranslator.LinesLabelsNames | include/tasm/tasm_translator.h:360-427 | the same over a sequence of lines |
| TasmTranslator.CharCode | include/tasm/tasm_translator.h:90-105 | a char PUSH emits the character's signed `char` value |
| TasmTranslator.ResolveCall | include/tasm/tasm_translator.h:275-304 | resolving a reference emits nothing; err is set afterwards exactly when it was set before or the qualified name is not in the table searched (procedures for a top-level CALL, labels otherwise); when it resolves, the name and its address are appended to `label_calls` |
| TasmTranslator.JumpStep | include/tasm/tasm_translator.h:166-231 | corrected jump: err is set exactly when it was set or the label does not resolve; with no earlier error and a resolved label, one jump to the label's address is emitted |
| TasmTranslator.JumpStepAsWritten | include/tasm/tasm_translator.h:174-186 | as written: err is set exactly when it was set or the label does not resolve |
| TasmTranslator.CallStep | include/tasm/tasm_translator.h:232-246 | err is set exactly when it was set or the procedure does not resolve; otherwise one CALL to the procedure's address is emitted |
| TasmTranslator.InstEmit | include/tasm/tasm_translator.h:87-270 | an instruction emits at most one opcode and records at most one reference, and err never clears |
| TasmTranslator.LineEmit | include/tasm/tasm_translator.h:85-312 | a line emits at most one opcode per counted instruction |
| TasmTranslator.LinesEmit | include/tasm/tasm_translator.h:341-354 | procedure lines emit at most one opcode per counted instruction |
| TasmTranslator.ProcAndLineEmit | include/tasm/tasm_translator.h:314-324 | a top-level line emits at most its counted instructions |
| TasmTranslator.UnitEmit | include/tasm/tasm_translator.h:326-339 | a file emits at most its counted instructions |
| TasmTranslator.JumpStepRecorded | include/tasm/tasm_translator.h:166-231 | JMP/JZ/JNZ to a label fail exactly when the label is not declared under the procedure prefix, and otherwise emit the address they recorded |
| TasmTranslator.CallStepRecorded | include/tasm/tasm_translator.h:232-304 | CALL fails exactly when the procedure is not declared, and otherwise emits the address it recorded |
| TasmTranslator.InstEmitErr | include/tasm/tasm_translator.h:166-246 | an instruction sets err exactly when err was set or its label-call operand does not resolve |
| TasmTranslator.LineEmitErr | include/tasm/tasm_translator.h:85-312 | a line sets err exactly when err was set or one of its references does not resolve |
| TasmTranslator.LinesEmitErr | include/tasm/tasm_translator.h:341-354 | procedure lines set err exactly when err was set or one of their references does not resolve |
| TasmTranslator.ProcAndLineEmitErr | include/tasm/tasm_translator.h:314-324 | a top-level line sets err exactly when err was set or one of its references does not resolve |
| TasmTranslator.UnitEmitErr | include/tasm/tasm_translator.h:326-339 | a file sets err exactly when err was set or one of its references does not resolve |
| TasmTranslator.LinesResolveSnoc | include/tasm/tasm_translator.h:346-350 | procedure lines resolve exactly when all but the last do and the last does |
| TasmTranslator.UnitResolvesSnoc | include/tasm/tasm_translator.h:331-335 | file lines resolve exactly when all but the last do and the last does |
| TasmTranslator.AsWrittenAgreesOnFirstReference | include/tasm/tasm_translator.h:174-186 | the as-written jump agrees with the corrected one when no earlier reference used the name |
| TasmTranslator.SharedNameLabels | include/tasm/tasm_translator.h:356-427 | in the sample file the label `foo` is at address 1 |
| TasmTranslator.SharedNameProcs | include/tasm/tasm_translator.h:434-499 | in the sample file the procedure `foo` is at address 0 |
| TasmTranslator.SharedNameProc | include/tasm/tasm_translator.h:326-354 | the sample's procedure emits its RET |
| TasmTranslator.SharedNameCall | include/tasm/tasm_translator.h:232-246 | the sample's `call foo` emits CALL 0 and records foo at 0 |
| TasmTranslator.SharedNameBeforeJump | include/tasm/tasm_translator.h:326-339 | the emitted state before the sample's jump |
| TasmTranslator.AsWrittenJumpAfterCall | include/tasm/tasm_translator.h:174-186 | after `call foo`, the as-written `jmp foo` emits JMP 0 |
| TasmTranslator.AsWrittenJumpsToProcedure | include/tasm/tasm_translator.h:174-186 | so in the sample file `jmp foo` goes to the procedure, not to the label at 1 |
| TasmTranslator.AsWrittenEmitsUnresolvedJump | include/tasm/tasm_translator.h:174-186 | an as-written jump whose label failed to resolve can still emit a jump, with err set |
| TasmTranslator.CorrectedJumpsToLabel | include/tasm/tasm_translator.h:166-187 | with the corrected lookup, the sample's `jmp foo` emits JMP 1 |
| TasmTranslator.InstEmitOpcode | include/tasm/tasm_translator.h:87-165 | each operand-free instruction emits one opcode of its type; PUSH, CLN and SWAP forward the number, and a char PUSH emits the first character's code |
| TasmTranslator.ProcLineEmitsExactly | include/tasm/tasm_translator.h:85-312 | a parsed line translated without error emits exactly one opcode per counted instruction |
| TasmTranslator.LinesEmitExactly | include/tasm/tasm_translator.h:341-354 | the same over procedure lines |
| TasmTranslator.UnitEmitExactly | include/tasm/tasm_translator.h:326-339 | the same over a file |
| TasmTranslator.CleanTranslationAgrees | include/tasm/tasm_translator.h:326-339 | after two clean passes, the translation is clean exactly when every reference resolves, and a clean translation leaves both address pointers equal to the emitted program length |
| TasmTranslator.ProcLocalReference | include/tasm/tasm_translator.h:278-286 | a proc-local reference, renamed by the parser and prefixed again here, matches only the declaration of the joined name, never the label itself |
| TasmTranslator.Translator.constructor | include/tasm/tasm_translator.h:63-80 | empty tables and program, pointers 0, no error |
| TasmTranslator.Translator.FindIn | include/tasm/tasm_translator.h:505-530 | the search loop returns `Find` of the filled part |
| TasmTranslator.Translator.LabelDeclAddr | include/tasm/tasm_translator.h:505-512 | `Find` on the label declarations |
| TasmTranslator.Translator.LabelCallAddr | include/tasm/tasm_translator.h:514-521 | `Find` on the recorded references |
| TasmTranslator.Translator.ProcDeclAddr | include/tasm/tasm_translator.h:523-530 | `Find` on the procedure declarations |
| TasmTranslator.Translator.IsErr | include/tasm/tasm_translator.h:561-563 | `is_err` answers the error flag of the translation state |
| TasmTranslator.Translator.ProgramPush | include/tasm/tasm_translator.h:501-503 | appends the opcode at program_size |
| TasmTranslator.Translator.ResolveLabels | include/tasm/tasm_translator.h:356-427 | ok exactly when the label pass passes, with the table and pointer it gives; err otherwise |
| TasmTranslator.Translator.ResolveLabelsLines | include/tasm/tasm_translator.h:360-364 | the loop over lines follows `LabelsLines` |
| TasmTranslator.Translator.ResolveProcs | include/tasm/tasm_translator.h:434-499 | ok exactly when the proc pass passes, with the table and pointer it gives; err otherwise |
| TasmTranslator.Translator.ResolveProcsLines | include/tasm/tasm_translator.h:438-442 | the loop over lines follows `ProcsLines` |
| TasmTranslator.Translator.RecordCall | include/tasm/tasm_translator.h:275-304 | equals `ResolveCall` |
| TasmTranslator.Translator.TranslateInst | include/tasm/tasm_translator.h:87-270 | equals `InstEmit` |
| TasmTranslator.Translator.TranslateCall | include/tasm/tasm_translator.h:232-246 | equals `CallStep` |
| TasmTranslator.Translator.TranslateJump | include/tasm/tasm_translator.h:174-186 | equals the corrected `JumpStep` |
| TasmTranslator.Translator.TranslateLine | include/tasm/tasm_translator.h:85-312 | equals `LineEmit` |
| TasmTranslator.Translator.TranslateProc | include/tasm/tasm_translator.h:341-354 | equals `LinesEmit` of the body under the procedure's prefix |
| TasmTranslator.Translator.TranslateLines | include/tasm/tasm_translator.h:346-350 | the loop over procedure lines follows `LinesEmit` |
| TasmTranslator.Translator.TranslateProcAndLine | include/tasm/tasm_translator.h:314-324 | equals `ProcAndLineEmit` |
| TasmTranslator.Translator.TranslateUnit | include/tasm/tasm_translator.h:326-339 | equals `UnitEmit` |
| TasmTranslator.Translator.TranslateFileLines | include/tasm/tasm_translator.h:331-335 | the loop over file lines follows `UnitEmit` |
| Cli.Arg | include/common/cli.h:29-36 | the argument at an index, or NULL past the end |
| Cli.TasmUsage | include/common/cli.h:38-49 | true exactly when argc >= 2 |
| Cli.TvmUsage | include/common/cli.h:51-62 | true exactly when argc >= 2 |
| Cli.NextRest | include/common/cli.h:75-87 | each option consumes at least one argument |
| Cli.Scan | include/common/cli.h:74-88 | once `-o` is seen it stays seen, and a file name once set stays set |
| Cli.TasmParse | include/common/cli.h:66-97 | success needs argc >= 2 and a file name; with argc < 2 nothing changes and the result is false |
| Cli.ApplyAllLibs | include/common/cli.h:82-83 | the library list grows by the `-l` arguments in order |
| Cli.ApplyAllFlags | include/common/cli.h:80-85 | compile and ast_show are set exactly when `-c` or `-ast` occurs |
| Cli.ApplyAllGiven | include/common/cli.h:76-79 | `-o` was seen exactly when an output option occurs |
| Cli.ApplyAllNames | include/common/cli.h:76-87 | the file name is the last plain argument and the output name the last `-o` argument |
| Cli.ScanAppliesItems | include/common/cli.h:74-88 | the scan loop is the options read left to right, then applied |
| Cli.ScanReadsItems | include/common/cli.h:74-88 | the fields after the scan, each read from the options |
| Cli.ItemsWithoutFlags | include/common/cli.h:86-87 | arguments with no flag among them are all file names |
| Cli.LastFileOfFiles | include/common/cli.h:86-87 | of several file names the last wins |
| Cli.TasmParseMeaning | include/common/cli.h:66-97 | false when argc < 2; otherwise ok exactly when a file name was given, the last one wins, libs in order, and the output is the last `-o` argument or "out.bin" |
| Cli.DanglingOutputFlag | include/common/cli.h:29-79 | a trailing `-o` takes the NULL after the last argument |
| Cli.ScanKeepsLibs | include/common/cli.h:82-83 | the scan only appends libraries |
| Cli.CommandLine.constructor | include/common/cli.h:66 | the cursor is at the program name with argc arguments left |
| Cli.CommandLine.Shift | include/common/cli.h:29-36 | returns the head (NULL past the end) and decrements argc by exactly 1 |
| Cli.ParsedArgs.constructor | include/common/cli.h:11-20 | no names, no libraries, no flags |
| Cli.ParseOption | include/common/cli.h:75-87 | one turn of the loop consumes `NextRest` and applies the option read |
| Cli.ParseSwitch | include/common/cli.h:80-87 | `-c`, `-ast` and a plain argument apply their option and leave the `-o` flag alone |
| Cli.ParseOptionArgument | include/common/cli.h:76-83 | `-o X` and `-l X` take the argument after the flag |
| Cli.TasmParseCommandLine | include/common/cli.h:66-97 | the result and the fields equal `TasmParse` of the arguments |
| Cli.TvmParseCommandLine | include/common/cli.h:99-112 | ok exactly when there is an argument after the program name; the file name is then the last one, otherwise unchanged |
| Arena.InitSpec | include/common/arena.h:42-53 | `arena_init(n)` adds a block with size 0, capacity n, no prev and no next |
| Arena.GrowSpec | include/common/arena.h:73-78 | the new block is numbered after every existing one, empty, with h's capacity, and linked after h in both directions |
| Arena.AllocSpec | include/common/arena.h:55-63 | NULL exactly when zero bytes are asked for; otherwise the allocation's block ends at offset + n, and at most one block is added |
| Arena.ReallocSpec | include/common/arena.h:65-71 | only a NULL pointer with a nonzero size gives an allocation; a non-NULL pointer changes no block |
| Arena.ResetSpec | include/common/arena.h:80-82 | the block's size becomes 0 with its capacity kept, and every other block is unchanged |
| Arena.Chain | include/common/arena.h:84-89 | the blocks destroy reaches from h are h and older blocks |
| Arena.Root | include/common/arena.h:86-91 | the block where the prev walk ends is on the chain and has no prev |
| Arena.DestroySpec | include/common/arena.h:84-92 | destroying keeps the block numbering |
| Arena.GrowLinks | include/common/arena.h:73-78 | the new block has the same capacity and links back to h, h's next is the new block, and all other blocks are unchanged |
| Arena.AllocZero | include/common/arena.h:56-57 | zero bytes give NULL and change nothing |
| Arena.AllocPlacement | include/common/arena.h:55-78 | a fitting request starts at the old size, size grows by n, and capacity is unchanged; otherwise it takes offset 0 of a new block after h, and h's size is unchanged |
| Arena.AllocBeyondUsed | include/common/arena.h:58-62 | an allocation ends at its block's new size and starts past everything handed out before in that block |
| Arena.AllocTwiceDisjoint | include/common/arena.h:58-62 | two allocations in a row in the same block do not overlap |
| Arena.AllocWellSized | include/common/arena.h:58-74 | size <= capacity is kept exactly when the request is no larger than the capacity |
| Arena.ResetRestarts | include/common/arena.h:80-82 | reset sets size to 0, keeps capacity and links, and the next allocation starts at offset 0 |
| Arena.DestroyFrees | include/common/arena.h:84-92 | exactly the chain's memory is freed, and exactly the first block's header |
| Arena.OverflowRegrows | include/common/arena.h:55-92 | the handle stays on the full block, so a second overflow grows another block that replaces the first as next, and destroying from the handle frees neither |
| Arena.Arenas.Init | include/common/arena.h:42-53 | equals `InitSpec` |
| Arena.Arenas.Grow | include/common/arena.h:73-78 | equals `GrowSpec` |
| Arena.Arenas.Alloc | include/common/arena.h:55-63 | equals `AllocSpec` |
| Arena.Arenas.Realloc | include/common/arena.h:65-71 | equals `ReallocSpec`: a NULL pointer allocates, anything else gives NULL |
| Arena.Arenas.Reset | include/common/arena.h:80-82 | equals `ResetSpec` |
| Arena.Arenas.Destroy | include/common/arena.h:84-92 | the walk over prev equals `DestroySpec` |

## Left out

- Floating point: the float opcodes of `include/tvm/tvm.h` take their results from an uninterpreted `FloatUnit` parameter, and the legacy float opcodes are stubs. No IEEE-754 arithmetic is modelled.
- Output and process exit:
  - the stack dumps, `symbol_dump` and the diagnostics are not modelled;
  - `cli_shift`'s message, whose format has two `%s` and one argument, is not modelled;
  - the exception report with `exit(1)` in `tvm_run` is the `Faulted` outcome;
  - the fatal `exit` in the parser and the duplicate-symbol exits in the translator are error results.
- File I/O: `tvm_load_program_from_file`, the `tvm_save_program_*` stubs, `tasm_translator_generate_bin` and `read_file_content` are not modelled. So there is no compile-then-load round trip: the writer emits only opcodes, and the loader expects a metadata header first.
- The program metadata table, `program_arena`, the native call bridge, the garbage collector and the NASM emitter are not part of this model.
- The token source between lexer and parser: the parser takes any token sequence. The token enum of `include/tasm/tasm_token.h` is stale relative to the lexer and parser tables, so kinds are abstract and `Op(k)` is the k-th instruction token.
- Tvm.Machine.RunLoop and TvmLegacy.Machine.RunLoop: bounded by a `fuel` parameter, because a guest program may loop forever. `OutOfFuel` is a model outcome only.
- Tvm.Step: requires the fetch `code[ip]` and a PUSH store to be inside the arrays; outside them the C code is undefined, and `Run` reports `Undefined`.
- TasmParser.Parser.ParseInstruction: the JZ token has no case in the switch, so its tag is uninitialised; the model reports `Undefined` instead of a value.
- TasmParser.NumberLiteral: `atoi` out of the `int` range is undefined; only the value of a numeral is stated, modulo 2^32.
- The one-byte-short `malloc` for the renamed label (no room for the terminator) is not modelled; names are sequences.
- TasmTranslator.ProcLocalReference: proc-local label references do not resolve end to end. The parser joins `proc` and `label` with no separator, the translator prefixes `proc$` again, and declarations are stored as `proc$label`. The model states this mismatch and does not claim the resolution.
- The translator's overwrite of `node->label_call.name` is not modelled: the AST is a value. So translating the same tree twice, which in C would prefix a name twice, is out.
- The translator's jumps to a label are modelled as corrected, not as written: a JMP, JZ or JNZ whose operand is a label call takes the address its own reference resolved to in the label declarations (`JumpStep`). The C code instead looks the name up in `label_calls` and takes the first match (include/tasm/tasm_translator.h:177, :199, :221), which `JumpStepAsWritten` models. The two differ in two ways:
  - when a CALL to a procedure of the same name came first, C jumps to the procedure: on `SharedNameFile`, C emits JMP 0 and the model JMP 1;
  - when the label does not resolve but a CALL recorded the name, C sets err and still emits the jump (JMP 0 after `call foo`), while the model sets err and emits nothing.

  On the first reference to a name the two agree (`AsWrittenAgreesOnFirstReference`), and a single jump step sets err in the same cases in both. Each member below inherits the corrected lookup and does not promise the as-written opcodes:
- TasmTranslator.InstEmit: built on the corrected `JumpStep`.
- TasmTranslator.LineEmit: built on `InstEmit`, so the corrected jump.
- TasmTranslator.LinesEmit: built on `LineEmit`, so the corrected jump.
- TasmTranslator.ProcAndLineEmit: built on `LineEmit` and `LinesEmit`, so the corrected jump.
- TasmTranslator.UnitEmit: built on `ProcAndLineEmit`, so the corrected jump; on `SharedNameFile` it gives JMP 1 where C gives JMP 0.
- TasmTranslator.ProcLineEmitsExactly: proved of the corrected chain; as written, an unresolved jump after a CALL of the same name emits an opcode with err set.
- TasmTranslator.LinesEmitExactly: proved of the corrected chain.
- TasmTranslator.UnitEmitExactly: proved of the corrected chain.
- TasmTranslator.CleanTranslationAgrees: proved of the corrected chain.
- TasmTranslator.Translator.TranslateInst: calls `TranslateJump`, which looks the target up in the label declarations, not with `LabelCallAddr`.
- TasmTranslator.Translator.TranslateJump: the corrected jump case, equal to `JumpStep`.
- TasmTranslator.Translator.TranslateLine: equals `LineEmit`, so the corrected jump.
- TasmTranslator.Translator.TranslateProc: equals `LinesEmit`, so the corrected jump.
- TasmTranslator.Translator.TranslateLines: follows `LinesEmit`, so the corrected jump.
- TasmTranslator.Translator.TranslateLineAt: follows `LinesEmit`, so the corrected jump.
- TasmTranslator.Translator.TranslateProcAndLine: equals `ProcAndLineEmit`, so the corrected jump.
- TasmTranslator.Translator.TranslateUnit: equals `UnitEmit`, so the corrected jump.
- TasmTranslator.Translator.TranslateFileLines: follows `UnitEmit`, so the corrected jump.
- TasmTranslator.Translator.TranslateFileLineAt: follows `UnitEmit`, so the corrected jump.
- The jump operand's recursive `tasm_translate_line` call is modelled as the call to `RecordCall`, since the operand is a label call and only that case runs.
- TasmTranslator.Translator.ResolveLabels, ResolveProcs, RecordCall and ProgramPush require room in the fixed arrays (512 symbols, 1024 opcodes). The C code writes past them without a check, which is undefined.
- Cli.TasmParseCommandLine: requires at most 32 `-l` options, since `clib_names` has 32 slots and the C code writes past it unchecked.
- Arena: memory contents, `malloc` failure and `size_t` overflow of `size + n` are not modelled. Offsets and sizes are unbounded. Using or destroying a freed block is undefined in C and is excluded by preconditions.

## Findings

| source | as written | input that shows it | evidently intended | confidence | as-written member | corrected member |
|---|---|---|---|---|---|---|
| include/tasm/tasm_translator.h:174-186 (also 196-208, 218-230) | JMP/JZ/JNZ to a label take the jump address from `label_calls`, the list of every resolved reference, by first match on the name. A CALL to a procedure with the same name records the procedure's address there first. | `proc foo` / `ret` / `endp` / `foo:` / `call foo` / `jmp foo`: the label `foo` is at 1 and the procedure `foo` at 0, and `jmp foo` emits JMP 0 | the jump goes to the address its own label reference resolved to, the declaration of the label (JMP 1) | high, not executed | TasmTranslator.JumpStepAsWritten (TasmTranslator.AsWrittenJumpsToProcedure) | TasmTranslator.JumpStep (TasmTranslator.JumpStepRecorded, TasmTranslator.CorrectedJumpsToLabel) |
