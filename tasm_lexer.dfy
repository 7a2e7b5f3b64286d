/** The lexer of include/tasm/tasm_lexer.h.

    The lexer walks a text one character at a time with a window of three
    characters (previous, current, next) and a row/column location. The pure
    functions below say where each scanning loop stops and which token it yields;
    the class `Lexer` keeps the C fields and its methods are proved to follow them. */
module TasmLexer {
  import opened TasmToken

  const NUL: char := 0 as char

  /** `EOF` compared with a plain (signed) `char`: the byte 0xFF, which
      read_file_content stores after the file's text. */
  const EOF_CHAR: char := 0xFF as char

  /** Size of the `temp_val` buffer of collect_id and collect_number. */
  const TEMP_CAPACITY: nat := 128

  // Character classes of <ctype.h> in the C locale, on 7-bit characters.
  predicate IsAlpha(c: char) { 'a' <= c <= 'z' || 'A' <= c <= 'Z' }
  predicate IsDigit(c: char) { '0' <= c <= '9' }
  predicate IsAlnum(c: char) { IsAlpha(c) || IsDigit(c) }
  predicate IsBlank(c: char) { c == ' ' || c == '\t' }

  /** What skip_line steps over: anything but a newline or EOF. */
  predicate InLine(c: char) { c != '\n' && c != EOF_CHAR }

  /** The buffer seen by the lexer: the text, then its NUL terminator. */
  function CharAt(text: string, i: nat): char {
    if i < |text| then text[i] else NUL
  }

  /** Where a loop that calls `advance` while `p` holds of the current character
      stops, starting at position `i`. `advance` never moves past the end of the
      text, so the loop gets no further than `|text|`. */
  function ScanWhile(text: string, i: nat, p: char -> bool): (j: nat)
    ensures i <= j
    ensures j <= |text| || j == i
    ensures forall k | i <= k < j :: k < |text| && p(text[k])
    ensures j < |text| ==> !p(text[j])
    decreases |text| - i
  {
    if i < |text| && p(text[i]) then ScanWhile(text, i + 1, p) else i
  }

  /** Number of newlines in `s`. */
  function Newlines(s: string): nat {
    if s == [] then 0
    else Newlines(s[..|s| - 1]) + (if s[|s| - 1] == '\n' then 1 else 0)
  }

  /** The column `advance` reports at position `c`: it counts from 0 on the first
      row, and from 1 after a newline (the reset to 0 is followed by the move). */
  function Column(text: string, c: nat): nat
    requires c <= |text|
  {
    if c == 0 then 0
    else if text[c - 1] == '\n' then 1
    else Column(text, c - 1) + 1
  }

  // ---------------------------------------------------------------------------
  // Instruction spellings (`_inst_strings_lower` / `_inst_strings_upper`)

  function Lower(k: OpIndex): string {
    match k
    case 0 => "nop"   case 1 => "push"  case 2 => "add"   case 3 => "sub"
    case 4 => "mult"  case 5 => "div"   case 6 => "mod"   case 7 => "dup"
    case 8 => "cln"   case 9 => "swap"  case 10 => "addf" case 11 => "subf"
    case 12 => "multf" case 13 => "divf" case 14 => "inc" case 15 => "incf"
    case 16 => "dec"  case 17 => "decf" case 18 => "jmp"  case 19 => "jz"
    case 20 => "jnz"  case 21 => "call" case 22 => "ret"  case 23 => "ci2f"
    case 24 => "ci2u" case 25 => "cf2i" case 26 => "cf2u" case 27 => "cu2i"
    case 28 => "cu2f" case 29 => "hlt"
  }

  function Upper(k: OpIndex): string {
    match k
    case 0 => "NOP"   case 1 => "PUSH"  case 2 => "ADD"   case 3 => "SUB"
    case 4 => "MULT"  case 5 => "DIV"   case 6 => "MOD"   case 7 => "DUP"
    case 8 => "CLN"   case 9 => "SWAP"  case 10 => "ADDF" case 11 => "SUBF"
    case 12 => "MULTF" case 13 => "DIVF" case 14 => "INC" case 15 => "INCF"
    case 16 => "DEC"  case 17 => "DECF" case 18 => "JMP"  case 19 => "JZ"
    case 20 => "JNZ"  case 21 => "CALL" case 22 => "RET"  case 23 => "CI2F"
    case 24 => "CI2U" case 25 => "CF2I" case 26 => "CF2U" case 27 => "CU2I"
    case 28 => "CU2F" case 29 => "HLT"
  }

  /** A reference reading of the two tables, word by word: the index of a
      lower-case spelling, 30 plus the index of an upper-case one, else -1. */
  function SpellingIndex(w: string): int {
    match w
    case "nop" => 0   case "push" => 1  case "add" => 2   case "sub" => 3
    case "mult" => 4  case "div" => 5   case "mod" => 6   case "dup" => 7
    case "cln" => 8   case "swap" => 9  case "addf" => 10 case "subf" => 11
    case "multf" => 12 case "divf" => 13 case "inc" => 14 case "incf" => 15
    case "dec" => 16  case "decf" => 17 case "jmp" => 18  case "jz" => 19
    case "jnz" => 20  case "call" => 21 case "ret" => 22  case "ci2f" => 23
    case "ci2u" => 24 case "cf2i" => 25 case "cf2u" => 26 case "cu2i" => 27
    case "cu2f" => 28 case "hlt" => 29
    case "NOP" => 30  case "PUSH" => 31 case "ADD" => 32  case "SUB" => 33
    case "MULT" => 34 case "DIV" => 35  case "MOD" => 36  case "DUP" => 37
    case "CLN" => 38  case "SWAP" => 39 case "ADDF" => 40 case "SUBF" => 41
    case "MULTF" => 42 case "DIVF" => 43 case "INC" => 44 case "INCF" => 45
    case "DEC" => 46  case "DECF" => 47 case "JMP" => 48  case "JZ" => 49
    case "JNZ" => 50  case "CALL" => 51 case "RET" => 52  case "CI2F" => 53
    case "CI2U" => 54 case "CF2I" => 55 case "CF2U" => 56 case "CU2I" => 57
    case "CU2F" => 58 case "HLT" => 59
    case _ => -1
  }

  lemma LowerSpellingIndex(k: OpIndex)
    ensures SpellingIndex(Lower(k)) == k
  {
  }

  lemma UpperSpellingIndex(k: OpIndex)
    ensures SpellingIndex(Upper(k)) == k + 30
  {
  }

  /** No spelling occurs twice in the two tables. */
  lemma TablesInjective(j: OpIndex, k: OpIndex)
    ensures Lower(j) == Lower(k) ==> j == k
    ensures Upper(j) == Upper(k) ==> j == k
    ensures Lower(j) != Upper(k)
  {
    LowerSpellingIndex(j);
    LowerSpellingIndex(k);
    UpperSpellingIndex(j);
    UpperSpellingIndex(k);
  }

  /** `is_id_op`: `val` is the lower- or the upper-case spelling at index `k`. */
  predicate IsIdOp(k: OpIndex, val: string) {
    val == Lower(k) || val == Upper(k)
  }

  /** The first table index at or after `k` whose spelling is `val`, or -1. */
  function FirstOp(val: string, k: nat): (r: int)
    requires k <= INSTRUCTION_COUNT
    ensures -1 <= r < INSTRUCTION_COUNT
    ensures r >= 0 ==> k <= r && IsIdOp(r, val)
    ensures r >= 0 ==> forall j: OpIndex | k <= j < r :: !IsIdOp(j, val)
    ensures r == -1 ==> forall j: OpIndex | k <= j :: !IsIdOp(j, val)
    decreases INSTRUCTION_COUNT - k
  {
    if k == INSTRUCTION_COUNT then -1
    else if IsIdOp(k, val) then k
    else FirstOp(val, k + 1)
  }

  /** The kind collect_id gives the word it collected: the first instruction
      spelling it equals, else `proc`, else `endp`, else an identifier. */
  function Classify(word: string): (kind: TokenKind)
    ensures kind.Op? ==> IsIdOp(kind.index, word)
    ensures kind.Op? || kind == ProcWord || kind == EndpWord || kind == Id
  {
    var k := FirstOp(word, 0);
    if k >= 0 then Op(k)
    else if word == "proc" then ProcWord
    else if word == "endp" then EndpWord
    else Id
  }

  /** The spelling at index k, in either case, is the k-th instruction token. */
  lemma {:induction false} ClassifyTableWord(k: OpIndex)
    ensures Classify(Lower(k)) == Op(k)
    ensures Classify(Upper(k)) == Op(k)
  {
    assert IsIdOp(k, Lower(k)) && IsIdOp(k, Upper(k));
    forall j: OpIndex | j < k
      ensures !IsIdOp(j, Lower(k)) && !IsIdOp(j, Upper(k))
    {
      TablesInjective(j, k);
      TablesInjective(k, j);
    }
  }

  /** A word is the k-th instruction token exactly when it is one of the two
      spellings at index k. */
  lemma {:induction false} ClassifyOpIff(w: string, k: OpIndex)
    ensures Classify(w) == Op(k) <==> IsIdOp(k, w)
  {
    if IsIdOp(k, w) {
      ClassifyTableWord(k);
    }
  }

  predicate HasLower(w: string) { exists i | 0 <= i < |w| :: 'a' <= w[i] <= 'z' }
  predicate HasUpper(w: string) { exists i | 0 <= i < |w| :: 'A' <= w[i] <= 'Z' }

  lemma TableCase(k: OpIndex)
    ensures !HasUpper(Lower(k)) && !HasLower(Upper(k))
  {
  }

  /** A word that mixes lower- and upper-case letters is an identifier: it is
      no instruction spelling, and neither `proc` nor `endp`. */
  lemma {:induction false} MixedCaseIsIdentifier(w: string)
    requires HasLower(w) && HasUpper(w)
    ensures Classify(w) == Id
  {
    forall j: OpIndex
      ensures !IsIdOp(j, w)
    {
      TableCase(j);
    }
    assert !HasUpper("proc") && !HasUpper("endp");
  }

  /** A word in neither table is no instruction token. */
  lemma {:induction false} UnlistedWordIsNotOp(w: string)
    requires SpellingIndex(w) == -1
    ensures !Classify(w).Op?
  {
    forall j: OpIndex
      ensures !IsIdOp(j, w)
    {
      LowerSpellingIndex(j);
      UpperSpellingIndex(j);
    }
  }

  /** `proc` and `endp`, in lower case only, are the two keywords. */
  lemma {:induction false} KeywordWords(w: string)
    ensures w == "proc" ==> Classify(w) == ProcWord
    ensures w == "endp" ==> Classify(w) == EndpWord
  {
    if w == "proc" || w == "endp" {
      UnlistedWordIsNotOp(w);
    }
  }

  // ---------------------------------------------------------------------------
  // Tokens

  /** One call of get_next_token: a token, or one of the two ways the C code
      goes wrong — a lexeme that overflows `temp_val`, or a comment that runs
      into the NUL terminator, where skip_line spins forever. */
  datatype LexResult = Lexed(token: Token) | TooLong | Hangs

  /** collect_id at position `i`: the maximal run of letters and digits. */
  function IdAt(text: string, i: nat): (res: (LexResult, nat))
    requires i <= |text|
    ensures res.1 == ScanWhile(text, i, IsAlnum)
    ensures res.0.Lexed? ==> res.0.token.value == text[i..res.1]
    ensures res.0.Lexed? ==> res.0.token.kind == Classify(res.0.token.value)
    ensures res.0 != Hangs
    ensures res.0 == TooLong <==> res.1 - i >= TEMP_CAPACITY
  {
    var j := ScanWhile(text, i, IsAlnum);
    if j - i >= TEMP_CAPACITY then (TooLong, j)
    else (Lexed(Token(Classify(text[i..j]), text[i..j])), j)
  }

  /** collect_number at position `i`: the maximal run of digits. */
  function NumberAt(text: string, i: nat): (res: (LexResult, nat))
    requires i <= |text|
    ensures res.1 == ScanWhile(text, i, IsDigit)
    ensures res.0.Lexed? ==> res.0.token == Token(Number, text[i..res.1])
    ensures res.0 != Hangs
    ensures res.0 == TooLong <==> res.1 - i >= TEMP_CAPACITY
  {
    var j := ScanWhile(text, i, IsDigit);
    if j - i >= TEMP_CAPACITY then (TooLong, j)
    else (Lexed(Token(Number, text[i..j])), j)
  }

  /** collect_one_chars at position `i`. */
  function OneCharAt(text: string, i: nat): (res: (LexResult, nat))
    requires i <= |text|
    ensures i <= res.1 <= |text|
    ensures res.1 == i <==> res.0 == Lexed(EOF_TOKEN) || res.0 == Lexed(NO_TOKEN)
  {
    var c := CharAt(text, i);
    if c == '\n' then (Lexed(Token(EndLine, "endl")), i + 1)
    else if c == ';' then
      var j := ScanWhile(text, i, InLine);
      (if j < |text| then Lexed(Token(Comment, ";")) else Hangs, j)
    else if c == ':' then (Lexed(Token(Colon, ":")), i + 1)
    else if c == '\'' then (Lexed(Token(Apost, "'")), i + 1)
    else if c == EOF_CHAR then (Lexed(EOF_TOKEN), i)
    else (Lexed(NO_TOKEN), i)
  }

  /** get_next_token at position `i`: skip blanks, then an identifier, a number
      or a one-character token. */
  function NextToken(text: string, i: nat): (res: (LexResult, nat))
    requires i <= |text|
    ensures i <= res.1 <= |text|
    ensures res.0 != Lexed(EOF_TOKEN) && res.0 != Lexed(NO_TOKEN) ==> res.1 > ScanWhile(text, i, IsBlank)
  {
    var s := ScanWhile(text, i, IsBlank);
    var c := CharAt(text, s);
    if IsAlpha(c) then IdAt(text, s)
    else if IsDigit(c) then NumberAt(text, s)
    else OneCharAt(text, s)
  }

  /** get_next_token starts its lexeme at the first character that is neither
      a space nor a tab. */
  lemma NextTokenSkipsBlanks(text: string, i: nat)
    requires i <= |text|
    ensures !IsBlank(CharAt(text, ScanWhile(text, i, IsBlank)))
  {
  }

  /** A number token is a non-empty run of digits, and the character after it
      is not a digit: the run is the longest one. */
  lemma {:induction false} NumberTokenIsMaximal(text: string, i: nat)
    requires i <= |text|
    ensures var (r, j) := NextToken(text, i);
      r.Lexed? && r.token.kind == Number ==>
        && |r.token.value| > 0
        && (forall k | 0 <= k < |r.token.value| :: IsDigit(r.token.value[k]))
        && !IsDigit(CharAt(text, j))
  {
    var s := ScanWhile(text, i, IsBlank);
    var c := CharAt(text, s);
    if !IsAlpha(c) && IsDigit(c) {
      var j := ScanWhile(text, s, IsDigit);
      DigitValueShape(text, s, j);
    }
  }

  /** An identifier or keyword token is a non-empty run of letters and digits
      that starts with a letter, and the character after it is neither. */
  lemma {:induction false} WordTokenIsMaximal(text: string, i: nat)
    requires i <= |text|
    ensures var (r, j) := NextToken(text, i);
      r.Lexed? && (r.token.kind.Id? || r.token.kind.Op? || r.token.kind == ProcWord || r.token.kind == EndpWord) ==>
        && |r.token.value| > 0 && IsAlpha(r.token.value[0])
        && (forall k | 0 <= k < |r.token.value| :: IsAlnum(r.token.value[k]))
        && !IsAlnum(CharAt(text, j))
  {
    var s := ScanWhile(text, i, IsBlank);
    var c := CharAt(text, s);
    if IsAlpha(c) {
      var j := ScanWhile(text, s, IsAlnum);
      IdValueShape(text, s, j);
    }
  }

  /** The one-character tokens: each is decided by the character at the start
      of the lexeme; a newline, colon or apostrophe is consumed, EOF is not, a
      comment runs up to (not over) the next newline or EOF, and any other
      character yields TOKEN_NONE without moving. */
  lemma {:induction false} OneCharTokens(text: string, i: nat)
    requires i <= |text|
    ensures var s := ScanWhile(text, i, IsBlank);
      var (r, j) := NextToken(text, i);
      && (r.Lexed? && r.token.kind == EndLine ==> CharAt(text, s) == '\n' && j == s + 1)
      && (r.Lexed? && r.token.kind == Colon ==> CharAt(text, s) == ':' && j == s + 1)
      && (r.Lexed? && r.token.kind == Apost ==> CharAt(text, s) == '\'' && j == s + 1)
      && (r.Lexed? && r.token.kind == Eof ==> CharAt(text, s) == EOF_CHAR && j == s)
      && (r.Lexed? && r.token.kind == Comment ==> CharAt(text, s) == ';' && j < |text| && !InLine(text[j]))
      && (r.Lexed? && r.token.kind == NoToken ==> j == s)
      && (r == Hangs ==> CharAt(text, s) == ';' && j == |text|)
  {
  }

  lemma IdValueShape(text: string, s: nat, j: nat)
    requires s < j <= |text| && IsAlpha(text[s])
    requires forall k | s <= k < j :: IsAlnum(text[k])
    ensures IsAlpha(text[s..j][0])
    ensures forall k | 0 <= k < |text[s..j]| :: IsAlnum(text[s..j][k])
  {
    forall k | 0 <= k < |text[s..j]|
      ensures IsAlnum(text[s..j][k])
    {
      assert text[s..j][k] == text[s + k];
    }
  }

  lemma DigitValueShape(text: string, s: nat, j: nat)
    requires s < j <= |text|
    requires forall k | s <= k < j :: IsDigit(text[k])
    ensures forall k | 0 <= k < |text[s..j]| :: IsDigit(text[s..j][k])
  {
    forall k | 0 <= k < |text[s..j]|
      ensures IsDigit(text[s..j][k])
    {
      assert text[s..j][k] == text[s + k];
    }
  }

  // ---------------------------------------------------------------------------
  // The lexer object

  class Lexer {
    const source: string
    const size: nat
    var cursor: nat
    var prevChar: char
    var currentChar: char
    var nextChar: char
    var row: int
    var col: int

    /** The window is the buffer around the cursor, and `row`/`col` are the
        location of the cursor in the text. */
    ghost predicate Valid()
      reads this
    {
      && size == |source|
      && cursor <= size
      && currentChar == CharAt(source, cursor)
      && nextChar == CharAt(source, cursor + 1)
      && prevChar == CharAt(source, if cursor == 0 then 0 else cursor - 1)
      && row == Newlines(source[..cursor])
      && col == Column(source, cursor)
    }

    /** `tasm_lexer_init`. The byte after the terminator, which the C code reads
        into `next_char` for a short text, is taken to be another NUL. */
    constructor (text: string)
      requires NUL !in text
      ensures Valid() && source == text
      ensures cursor == 0 && row == 0 && col == 0
    {
      source := text;
      size := |text|;
      cursor := 0;
      prevChar := CharAt(text, 0);
      currentChar := CharAt(text, 0);
      nextChar := CharAt(text, 1);
      row := 0;
      col := 0;
      new;
      assert source[..0] == [];
    }

    /** `tasm_lexer_advance`. */
    method Advance()
      requires Valid()
      modifies this
      ensures Valid()
      ensures cursor == if old(currentChar) != EOF_CHAR && old(cursor) < size
                        then old(cursor) + 1 else old(cursor)
      ensures row == old(row) + (if old(currentChar) == '\n' then 1 else 0)
      ensures old(currentChar) == '\n' ==> col == 1
      ensures old(currentChar) != '\n' ==> col == old(col) + (cursor - old(cursor))
    {
      if currentChar == '\n' {
        row := row + 1;
        col := 0;
      }
      if currentChar != EOF_CHAR && cursor < size {
        prevChar := currentChar;
        currentChar := nextChar;
        cursor := cursor + 1;
        nextChar := CharAt(source, cursor + 1);
        col := col + 1;
        assert source[..cursor][..cursor - 1] == source[..cursor - 1];
      }
    }

    /** `tasm_lexer_skip_whitespace`. */
    method SkipWhitespace()
      requires Valid()
      modifies this
      ensures Valid()
      ensures cursor == ScanWhile(source, old(cursor), IsBlank)
      ensures !IsBlank(currentChar)
    {
      while currentChar == ' ' || currentChar == '\t'
        invariant Valid()
        invariant ScanWhile(source, cursor, IsBlank) == ScanWhile(source, old(cursor), IsBlank)
        decreases size - cursor
      {
        Advance();
      }
    }

    /** `tasm_lexer_skip_line`: stops on the newline or EOF, without consuming it.
        `hangs` reports that the cursor reached the terminator first, where
        `advance` can no longer move and the C loop never ends. */
    method SkipLine() returns (hangs: bool)
      requires Valid()
      modifies this
      ensures Valid()
      ensures cursor == ScanWhile(source, old(cursor), InLine)
      ensures hangs <==> cursor == size
    {
      while currentChar != '\n' && currentChar != EOF_CHAR
        invariant Valid()
        invariant ScanWhile(source, cursor, InLine) == ScanWhile(source, old(cursor), InLine)
        decreases size - cursor
      {
        if cursor == size {
          return true;
        }
        Advance();
      }
      return false;
    }

    /** `lexer_collect_one_chars`. */
    method CollectOneChars() returns (r: LexResult)
      requires Valid()
      modifies this
      ensures Valid()
      ensures (r, cursor) == OneCharAt(source, old(cursor))
    {
      if currentChar == '\n' {
        Advance();
        r := Lexed(Token(EndLine, "endl"));
      } else if currentChar == ';' {
        var hangs := SkipLine();
        r := if hangs then Hangs else Lexed(Token(Comment, ";"));
      } else if currentChar == ':' {
        Advance();
        r := Lexed(Token(Colon, ":"));
      } else if currentChar == '\'' {
        Advance();
        r := Lexed(Token(Apost, "'"));
      } else if currentChar == EOF_CHAR {
        Advance();
        r := Lexed(EOF_TOKEN);
      } else {
        r := Lexed(NO_TOKEN);
      }
    }

    /** The loop collect_id and collect_number share: advance while `p` holds
        of the current character, collecting the characters passed over. */
    method CollectWhile(p: char -> bool) returns (val: string)
      requires Valid() && !p(NUL) && !p(EOF_CHAR)
      modifies this
      ensures Valid()
      ensures cursor == ScanWhile(source, old(cursor), p)
      ensures val == source[old(cursor)..cursor]
    {
      val := [];
      while p(currentChar)
        invariant Valid()
        invariant old(cursor) <= cursor
        invariant ScanWhile(source, cursor, p) == ScanWhile(source, old(cursor), p)
        invariant val == source[old(cursor)..cursor]
        decreases size - cursor
      {
        val := val + [currentChar];
        Advance();
      }
    }

    /** The keyword part of collect_id: the first instruction table entry that
        spells `val`, then `proc`, then `endp`. */
    static method KeywordKind(val: string) returns (kind: TokenKind)
      ensures kind == Classify(val)
    {
      var k := 0;
      while k < INSTRUCTION_COUNT
        invariant 0 <= k <= INSTRUCTION_COUNT
        invariant FirstOp(val, k) == FirstOp(val, 0)
      {
        if IsIdOp(k, val) {
          return Op(k);
        }
        k := k + 1;
      }
      if val == "proc" {
        return ProcWord;
      }
      if val == "endp" {
        return EndpWord;
      }
      return Id;
    }

    /** `tasm_lexer_collect_id`. */
    method CollectId() returns (r: LexResult)
      requires Valid()
      modifies this
      ensures Valid()
      ensures (r, cursor) == IdAt(source, old(cursor))
    {
      var val := CollectWhile(IsAlnum);
      if |val| >= TEMP_CAPACITY {
        return TooLong;
      }
      var kind := KeywordKind(val);
      return Lexed(Token(kind, val));
    }

    /** `tasm_lexer_collect_number`. */
    method CollectNumber() returns (r: LexResult)
      requires Valid()
      modifies this
      ensures Valid()
      ensures (r, cursor) == NumberAt(source, old(cursor))
    {
      var val := CollectWhile(IsDigit);
      if |val| >= TEMP_CAPACITY {
        return TooLong;
      }
      return Lexed(Token(Number, val));
    }

    /** `tasm_lexer_get_next_token`. */
    method GetNextToken() returns (r: LexResult)
      requires Valid()
      modifies this
      ensures Valid()
      ensures (r, cursor) == NextToken(source, old(cursor))
    {
      SkipWhitespace();
      if IsAlpha(currentChar) {
        r := CollectId();
      } else if IsDigit(currentChar) {
        r := CollectNumber();
      } else {
        r := CollectOneChars();
      }
    }
  }
}
