/** Command-line parsing of include/common/cli.h.

    `argv` is the sequence of argument strings and `argc` its length; the
    C array's terminating NULL is what `Arg` gives one past the end. The
    parsers update a `cli_parsed_args_t` in place, so its initial contents
    (whatever the caller put there) are an input. */
module Cli {
  import opened Wrappers

  const MAX_LIB_COUNT: nat := 32
  const DEFAULT_OUTPUT_NAME: string := "out.bin"

  /** The options a `cli_parsed_args_t` holds, as a value; `libs` is the used
      part of `clib_names`. */
  datatype Options = Options(fileName: Option<string>, outputName: Option<string>,
                             libs: seq<Option<string>>, astShow: bool, compile: bool)

  /** `argv[i]`: the string, or the NULL after the last one. */
  function Arg(argv: seq<string>, i: nat): (r: Option<string>)
    ensures r.Some? <==> i < |argv|
    ensures r.Some? ==> r.value == argv[i]
  {
    if i < |argv| then Some(argv[i]) else None
  }

  /** What is left after an option and its argument. */
  function Drop2(rest: seq<string>): (r: seq<string>)
    ensures |rest| >= 2 ==> r == rest[2..]
    ensures |rest| < 2 ==> r == []
  {
    if |rest| >= 2 then rest[2..] else []
  }

  /** `cli_tasm_usage`: too few arguments is refused; seven or more only
      draws a warning. */
  function TasmUsage(argc: int): (ok: bool)
    ensures ok <==> argc >= 2
  {
    if argc < 2 then false
    else if argc >= 7 then true
    else true
  }

  /** `cli_tvm_usage`. */
  function TvmUsage(argc: int): (ok: bool)
    ensures ok <==> argc >= 2
  {
    if argc < 2 then false else true
  }

  // ---------------------------------------------------------------------------
  // The loop of cli_tasm_parse_command_line, as a function

  /** One option with the argument it consumes. */
  datatype Item =
    | OutputItem(name: Option<string>)
    | CompileItem
    | LibItem(lib: Option<string>)
    | AstItem
    | FileItem(file: string)

  predicate IsFlag(s: string) {
    s == "-o" || s == "-c" || s == "-l" || s == "-ast"
  }

  /** The option the first argument starts: `-o` and `-l` take the next
      argument (NULL when there is none), `-c` and `-ast` take none, and
      anything else is a file name. */
  function HeadItem(rest: seq<string>): Item
    requires rest != []
  {
    if rest[0] == "-o" then OutputItem(Arg(rest, 1))
    else if rest[0] == "-c" then CompileItem
    else if rest[0] == "-l" then LibItem(Arg(rest, 1))
    else if rest[0] == "-ast" then AstItem
    else FileItem(rest[0])
  }

  /** The arguments after the first option. */
  function NextRest(rest: seq<string>): (r: seq<string>)
    requires rest != []
    ensures |r| < |rest|
  {
    if rest[0] == "-o" || rest[0] == "-l" then Drop2(rest) else rest[1..]
  }

  /** What one option does to the options and to the `-o` flag. */
  function ApplyItem(it: Item, o: Options, given: bool): (Options, bool) {
    match it
    case OutputItem(name) => (o.(outputName := name), true)
    case CompileItem => (o.(compile := true), given)
    case LibItem(lib) => (o.(libs := o.libs + [lib]), given)
    case AstItem => (o.(astShow := true), given)
    case FileItem(f) => (o.(fileName := Some(f)), given)
  }

  /** The options loop over the arguments after the program name; the flag
      says whether `-o` was seen. */
  function Scan(rest: seq<string>, o: Options, given: bool): (r: (Options, bool))
    ensures given ==> r.1
    ensures o.fileName.Some? ==> r.0.fileName.Some?
    decreases |rest|
  {
    if rest == [] then (o, given)
    else
      var (o1, given1) := ApplyItem(HeadItem(rest), o, given);
      Scan(NextRest(rest), o1, given1)
  }

  /** `cli_tasm_parse_command_line`: refused with fewer than two arguments,
      refused when no file name was given, and otherwise the options with
      "out.bin" as the output name when `-o` did not appear. */
  function TasmParse(argv: seq<string>, o: Options): (r: (bool, Options))
    ensures r.0 ==> TasmUsage(|argv|) && r.1.fileName.Some?
    ensures !TasmUsage(|argv|) ==> r == (false, o)
  {
    if !TasmUsage(|argv|) then (false, o)
    else
      var (o1, given) := Scan(argv[1..], o, false);
      if o1.fileName.None? then (false, o1)
      else (true, if given then o1 else o1.(outputName := Some(DEFAULT_OUTPUT_NAME)))
  }

  // ---------------------------------------------------------------------------
  // What the loop computes, field by field

  /** The arguments as the list of options the loop reads. */
  function Items(rest: seq<string>): seq<Item>
    decreases |rest|
  {
    if rest == [] then [] else [HeadItem(rest)] + Items(NextRest(rest))
  }

  /** The libraries named, in order. */
  function LibsOf(items: seq<Item>): seq<Option<string>> {
    if items == [] then []
    else (if items[0].LibItem? then [items[0].lib] else []) + LibsOf(items[1..])
  }

  /** The last file name, or `d` when there is none. */
  function LastFile(items: seq<Item>, d: Option<string>): Option<string> {
    if items == [] then d
    else LastFile(items[1..], if items[0].FileItem? then Some(items[0].file) else d)
  }

  /** The argument of the last `-o`, or `d` when there is none. */
  function LastOutput(items: seq<Item>, d: Option<string>): Option<string> {
    if items == [] then d
    else LastOutput(items[1..], if items[0].OutputItem? then items[0].name else d)
  }

  predicate HasOutput(items: seq<Item>) {
    exists i | 0 <= i < |items| :: items[i].OutputItem?
  }

  /** Applying options one after the other, from the left. */
  function ApplyAll(items: seq<Item>, o: Options, given: bool): (Options, bool) {
    if items == [] then (o, given)
    else
      var (o1, given1) := ApplyItem(items[0], o, given);
      ApplyAll(items[1..], o1, given1)
  }

  /** Applying options appends the libraries they name, in order. */
  lemma {:induction false} ApplyAllLibs(items: seq<Item>, o: Options, given: bool)
    ensures ApplyAll(items, o, given).0.libs == o.libs + LibsOf(items)
  {
    if items != [] {
      var (o1, given1) := ApplyItem(items[0], o, given);
      ApplyAllLibs(items[1..], o1, given1);
    }
  }

  /** `-c` and `-ast` set their flags, and nothing clears them. */
  lemma {:induction false} ApplyAllFlags(items: seq<Item>, o: Options, given: bool)
    ensures ApplyAll(items, o, given).0.compile <==> o.compile || CompileItem in items
    ensures ApplyAll(items, o, given).0.astShow <==> o.astShow || AstItem in items
  {
    if items != [] {
      var (o1, given1) := ApplyItem(items[0], o, given);
      ApplyAllFlags(items[1..], o1, given1);
      assert items == [items[0]] + items[1..];
    }
  }

  /** The `-o` flag ends up set exactly when some option is a `-o`. */
  lemma {:induction false} ApplyAllGiven(items: seq<Item>, o: Options, given: bool)
    ensures ApplyAll(items, o, given).1 <==> given || HasOutput(items)
  {
    if items != [] {
      var (o1, given1) := ApplyItem(items[0], o, given);
      ApplyAllGiven(items[1..], o1, given1);
      if HasOutput(items[1..]) {
        var i :| 0 <= i < |items[1..]| && items[1..][i].OutputItem?;
        assert items[i + 1].OutputItem?;
      }
      if HasOutput(items) && !items[0].OutputItem? {
        var i :| 0 <= i < |items| && items[i].OutputItem?;
        assert items[1..][i - 1].OutputItem?;
      }
    }
  }

  /** The last file name and the last `-o` argument win. */
  lemma {:induction false} ApplyAllNames(items: seq<Item>, o: Options, given: bool)
    ensures ApplyAll(items, o, given).0.fileName == LastFile(items, o.fileName)
    ensures ApplyAll(items, o, given).0.outputName == LastOutput(items, o.outputName)
  {
    if items != [] {
      var (o1, given1) := ApplyItem(items[0], o, given);
      ApplyAllNames(items[1..], o1, given1);
    }
  }

  /** The loop applies the options the arguments spell, from the left. */
  lemma {:induction false} ScanAppliesItems(rest: seq<string>, o: Options, given: bool)
    ensures Scan(rest, o, given) == ApplyAll(Items(rest), o, given)
    decreases |rest|
  {
    if rest != [] {
      var (o1, given1) := ApplyItem(HeadItem(rest), o, given);
      ScanAppliesItems(NextRest(rest), o1, given1);
      assert Items(rest)[0] == HeadItem(rest) && Items(rest)[1..] == Items(NextRest(rest));
    }
  }

  /** The options loop does, field by field, what the options it reads say. */
  lemma ScanReadsItems(rest: seq<string>, o: Options, given: bool)
    ensures var (o1, given1) := Scan(rest, o, given);
            var items := Items(rest);
            && o1.libs == o.libs + LibsOf(items)
            && (o1.compile <==> o.compile || CompileItem in items)
            && (o1.astShow <==> o.astShow || AstItem in items)
            && (given1 <==> given || HasOutput(items))
            && o1.fileName == LastFile(items, o.fileName)
            && o1.outputName == LastOutput(items, o.outputName)
  {
    ScanAppliesItems(rest, o, given);
    ApplyAllLibs(Items(rest), o, given);
    ApplyAllFlags(Items(rest), o, given);
    ApplyAllGiven(Items(rest), o, given);
    ApplyAllNames(Items(rest), o, given);
  }

  /** Arguments without flags are all file names. */
  lemma {:induction false} ItemsWithoutFlags(rest: seq<string>)
    requires forall i | 0 <= i < |rest| :: !IsFlag(rest[i])
    ensures |Items(rest)| == |rest|
    ensures forall i | 0 <= i < |rest| :: Items(rest)[i] == FileItem(rest[i])
    decreases |rest|
  {
    if rest != [] {
      ItemsWithoutFlags(rest[1..]);
    }
  }

  /** Among file names only, the last one wins. */
  lemma {:induction false} LastFileOfFiles(rest: seq<string>, d: Option<string>)
    requires forall i | 0 <= i < |rest| :: !IsFlag(rest[i])
    ensures LastFile(Items(rest), d) == if rest == [] then d else Some(rest[|rest| - 1])
    decreases |rest|
  {
    if rest != [] {
      ItemsWithoutFlags(rest);
      LastFileOfFiles(rest[1..], Some(rest[0]));
    }
  }

  /** What cli_tasm_parse_command_line promises: refused with fewer than two
      arguments; otherwise accepted exactly when a file name is known, the
      output name being the last `-o` argument or "out.bin", the libraries
      those of the `-l` options in order. */
  lemma TasmParseMeaning(argv: seq<string>, o: Options)
    ensures |argv| < 2 ==> TasmParse(argv, o) == (false, o)
    ensures |argv| >= 2 ==>
              var items := Items(argv[1..]);
              var (ok, o1) := TasmParse(argv, o);
              && (ok <==> LastFile(items, o.fileName).Some?)
              && o1.fileName == LastFile(items, o.fileName)
              && o1.libs == o.libs + LibsOf(items)
              && (ok ==> o1.outputName == if HasOutput(items) then LastOutput(items, o.outputName)
                                          else Some(DEFAULT_OUTPUT_NAME))
  {
    if |argv| >= 2 {
      ScanReadsItems(argv[1..], o, false);
    }
  }

  /** A trailing `-o` takes the NULL after the last argument. On the path
      modelled here parsing then succeeds, with no output name and without
      the "out.bin" default. The shift's message on that path (`cli_shift`
      formats two `%s` from one argument, which is undefined) is not part
      of this model. */
  lemma DanglingOutputFlag()
    ensures TasmParse(["tasm", "a.tasm", "-o"], Options(None, None, [], false, false))
            == (true, Options(Some("a.tasm"), None, [], false, false))
  {
    var rest := ["a.tasm", "-o"];
    var o := Options(None, None, [], false, false);
    assert ["tasm", "a.tasm", "-o"][1..] == rest;
    assert NextRest(rest) == ["-o"];
    assert NextRest(["-o"]) == [];
    assert Scan(["-o"], o.(fileName := Some("a.tasm")), false) == (Options(Some("a.tasm"), None, [], false, false), true);
  }

  // ---------------------------------------------------------------------------
  // The objects

  /** The `int* argc` / `char*** argv` pair the parsers advance: `index`
      arguments have been shifted off, and `argc` counts those left. */
  class CommandLine {
    const argv: seq<string>
    var argc: int
    var index: nat

    ghost predicate Valid()
      reads this
    {
      index <= |argv| + 1 && argc == |argv| - index
    }

    /** The arguments not yet shifted off. */
    ghost function Rest(): seq<string>
      requires Valid()
      reads this
    {
      if index <= |argv| then argv[index..] else []
    }

    constructor (argv: seq<string>)
      ensures Valid() && this.argv == argv && index == 0 && argc == |argv|
    {
      this.argv := argv;
      argc := |argv|;
      index := 0;
    }

    /** `cli_shift`: the current argument (NULL past the last one), and one
        fewer left. Shifting with `argc` already negative would read past
        the terminating NULL. */
    method Shift() returns (r: Option<string>)
      requires Valid() && argc >= 0
      modifies this`argc, this`index
      ensures Valid()
      ensures r == Arg(argv, old(index))
      ensures argc == old(argc) - 1 && index == old(index) + 1
      ensures Rest() == if old(Rest()) == [] then [] else old(Rest())[1..]
    {
      r := if index < |argv| then Some(argv[index]) else None;
      index := index + 1;
      argc := argc - 1;
    }
  }

  /** `cli_parsed_args_t`. */
  class ParsedArgs {
    var fileName: Option<string>
    var outputName: Option<string>
    const clibNames: array<Option<string>>
    var clibCount: nat
    var astShow: bool
    var compile: bool

    ghost predicate Valid()
      reads this
    {
      clibNames.Length == MAX_LIB_COUNT && clibCount <= clibNames.Length
    }

    ghost function View(): Options
      requires Valid()
      reads this, clibNames
    {
      Options(fileName, outputName, clibNames[..clibCount], astShow, compile)
    }

    /** A zero-initialised `cli_parsed_args_t`. */
    constructor ()
      ensures Valid() && fresh(clibNames)
      ensures View() == Options(None, None, [], false, false)
    {
      fileName, outputName := None, None;
      clibNames := new Option<string>[MAX_LIB_COUNT](_ => None);
      clibCount := 0;
      astShow, compile := false, false;
    }
  }

  /** The options loop only ever appends libraries. */
  lemma ScanKeepsLibs(rest: seq<string>, o: Options, given: bool)
    ensures o.libs <= Scan(rest, o, given).0.libs
  {
    ScanReadsItems(rest, o, given);
  }

  /** The arguments after the program name. */
  function Tail(argv: seq<string>): seq<string> {
    if argv == [] then [] else argv[1..]
  }

  /** One turn of the loop of cli_tasm_parse_command_line: shift an argument
      and, for `-o` and `-l`, the one after it. */
  method ParseOption(args: ParsedArgs, cl: CommandLine, given: bool) returns (given': bool)
    requires args.Valid() && cl.Valid() && cl.argc > 0
    requires |Scan(cl.Rest(), args.View(), given).0.libs| <= MAX_LIB_COUNT
    modifies args, args.clibNames, cl`argc, cl`index
    ensures args.Valid() && cl.Valid() && cl.argc >= -1
    ensures cl.argc <= 0 ==> cl.Rest() == []
    ensures old(cl.Rest()) != []
    ensures cl.Rest() == NextRest(old(cl.Rest()))
    ensures (args.View(), given') == ApplyItem(HeadItem(old(cl.Rest())), old(args.View()), given)
  {
    ghost var rest := cl.Rest();
    ghost var o := args.View();
    var arg := cl.Shift();
    given' := given;
    if arg.value == "-o" || arg.value == "-l" {
      given' := ParseOptionArgument(args, cl, arg.value, given, rest);
    } else {
      ParseSwitch(args, arg, given, rest);
    }
  }

  /** The options that take no argument: `-c`, `-ast` and a file name. */
  method ParseSwitch(args: ParsedArgs, arg: Option<string>, given: bool, ghost rest: seq<string>)
    requires args.Valid() && rest != [] && arg == Some(rest[0]) && rest[0] != "-o" && rest[0] != "-l"
    modifies args`compile, args`astShow, args`fileName
    ensures args.Valid()
    ensures (args.View(), given) == ApplyItem(HeadItem(rest), old(args.View()), given)
  {
    ghost var o := args.View();
    if arg.value == "-c" {
      args.compile := true;
      assert args.View() == o.(compile := true);
    } else if arg.value == "-ast" {
      args.astShow := true;
      assert args.View() == o.(astShow := true);
    } else {
      args.fileName := arg;
      assert args.View() == o.(fileName := arg);
    }
  }

  /** The argument of `-o` or `-l`, the NULL after the last argument when
      there is none. */
  method ParseOptionArgument(args: ParsedArgs, cl: CommandLine, flag: string, given: bool,
                             ghost rest: seq<string>) returns (given': bool)
    requires args.Valid() && cl.Valid() && cl.argc >= 0
    requires rest != [] && rest[0] == flag && (flag == "-o" || flag == "-l")
    requires cl.Rest() == rest[1..]
    requires |Scan(rest, args.View(), given).0.libs| <= MAX_LIB_COUNT
    modifies args`outputName, args`clibCount, args.clibNames, cl`argc, cl`index
    ensures args.Valid() && cl.Valid() && cl.argc >= -1
    ensures cl.argc <= 0 ==> cl.Rest() == []
    ensures cl.Rest() == NextRest(rest)
    ensures (args.View(), given') == ApplyItem(HeadItem(rest), old(args.View()), given)
  {
    ghost var o := args.View();
    var name := cl.Shift();
    assert name == Arg(rest, 1);
    if flag == "-o" {
      args.outputName := name;
      given' := true;
      assert args.View() == o.(outputName := name);
    } else {
      ScanKeepsLibs(NextRest(rest), o.(libs := o.libs + [name]), given);
      args.clibNames[args.clibCount] := name;
      args.clibCount := args.clibCount + 1;
      given' := given;
      assert args.View() == o.(libs := o.libs + [name]);
    }
  }

  /** `cli_tasm_parse_command_line`. More `-l` options than `clib_names`
      holds overflow the array, so the caller must not pass them. */
  method TasmParseCommandLine(args: ParsedArgs, cl: CommandLine) returns (ok: bool)
    requires args.Valid() && cl.Valid() && cl.argc >= 0
    requires |Scan(Tail(cl.Rest()), args.View(), false).0.libs| <= MAX_LIB_COUNT
    modifies args, args.clibNames, cl
    ensures args.Valid() && cl.Valid()
    ensures (ok, args.View()) == TasmParse(old(cl.Rest()), old(args.View()))
  {
    ok := TasmUsage(cl.argc);
    if !ok {
      return;
    }
    var _ := cl.Shift();
    var given := false;
    ghost var final := Scan(Tail(old(cl.Rest())), old(args.View()), false);
    while cl.argc > 0
      invariant args.Valid() && cl.Valid() && cl.argc >= -1
      invariant cl.argc <= 0 ==> cl.Rest() == []
      invariant Scan(cl.Rest(), args.View(), given) == final
      decreases cl.argc
    {
      given := ParseOption(args, cl, given);
    }
    if args.fileName.None? {
      return false;
    }
    if !given {
      args.outputName := Some(DEFAULT_OUTPUT_NAME);
    }
    return true;
  }

  /** `cli_tvm_parse_command_line`: refused with fewer than two arguments;
      otherwise the file name is the last argument, and nothing else
      changes. */
  method TvmParseCommandLine(args: ParsedArgs, cl: CommandLine) returns (ok: bool)
    requires args.Valid() && cl.Valid() && cl.argc >= 0
    modifies args`fileName, cl
    ensures cl.Valid()
    ensures ok <==> |old(cl.Rest())| >= 2
    ensures ok ==> args.fileName == Some(old(cl.Rest())[|old(cl.Rest())| - 1])
    ensures !ok ==> args.fileName == old(args.fileName)
  {
    ok := TvmUsage(cl.argc);
    if !ok {
      return;
    }
    ghost var all := cl.Rest();
    var _ := cl.Shift();
    while cl.argc > 0
      invariant cl.Valid() && cl.argc >= 0
      invariant cl.index >= 1 && cl.Rest() == all[cl.index - old(cl.index)..]
      invariant cl.index > old(cl.index) + 1 ==> args.fileName == Some(all[cl.index - old(cl.index) - 1])
      decreases cl.argc
    {
      var arg := cl.Shift();
      args.fileName := arg;
    }
    if args.fileName.None? {
      return false;
    }
    return true;
  }
}
